/** The data-error taxonomy of errors.py, and the built-in Python exceptions
    the modelled code can raise besides them. */
module Errors {

  /** Every variant is an instance of DataError: the four subclasses of
      errors.py, plus `Raised` for a DataError raised directly with a message
      (the email setter does that). */
  datatype DataError =
    | EmptyValue(fieldName: string)
    | InvalidType(fieldName: string, expectedType: string, actualType: string)
    | InvalidElementType(fieldName: string, expectedType: string)
    | CustomIndex
    | Raised(message: string)

  /** Exceptions a modelled call can raise. */
  datatype PyError =
    | Data(error: DataError)
    | KeyError(key: string)
    | ValueError(detail: string)
    | TypeError(detail: string)
    | AttributeError(attribute: string)
    | OverflowError(detail: string)

  const EmptyValuePrefix: string := "Поле \""
  const EmptyValueSuffix: string := "\" не может быть пустым."
  const InvalidTypePrefix: string := "Неверный тип данных для поля \""
  const InvalidTypeExpected: string := "\": ожидался "
  const InvalidTypeActual: string := ", получен "
  const InvalidElementPrefix: string := "Список \""
  const InvalidElementExpected: string := "\" должен содержать только объекты типа "
  const CustomIndexText: string := "Ошибка! Такого индекса не существует!"

  /** The text the exception carries (`str(e)`). */
  function Message(e: DataError): string {
    match e
    case EmptyValue(f) => EmptyValuePrefix + f + EmptyValueSuffix
    case InvalidType(f, expected, actual) =>
      InvalidTypePrefix + f + InvalidTypeExpected + expected + InvalidTypeActual + actual + "."
    case InvalidElementType(f, expected) =>
      InvalidElementPrefix + f + InvalidElementExpected + expected + "."
    case CustomIndex => CustomIndexText
    case Raised(m) => m
  }

  /** `part` occurs in `s` starting at index `i`. */
  ghost predicate OccursAt(s: string, part: string, i: int) {
    0 <= i && i + |part| <= |s| && s[i..i + |part|] == part
  }

  lemma SliceOfConcat(a: string, b: string, c: string)
    ensures OccursAt(a + b + c, b, |a|)
  {
    assert (a + b + c)[|a|..|a| + |b|] == b;
  }

  /** EmptyValueError's message embeds the field name right after its fixed prefix. */
  lemma EmptyValueMessageNamesField(f: string)
    ensures OccursAt(Message(EmptyValue(f)), f, |EmptyValuePrefix|)
  {
    var m := Message(EmptyValue(f));
    assert m[|EmptyValuePrefix|..|EmptyValuePrefix| + |f|] == f;
  }

  /** The field name can be recovered from EmptyValueError's message. */
  lemma EmptyValueMessageInjective(f: string, g: string)
    requires Message(EmptyValue(f)) == Message(EmptyValue(g))
    ensures f == g
  {
    var m := Message(EmptyValue(f));
    assert |f| == |g|;
    EmptyValueMessageNamesField(f);
    EmptyValueMessageNamesField(g);
  }

  /** InvalidTypeError's message names the field, the expected type and the
      actual type, in that order and without overlap. */
  lemma InvalidTypeMessageOrder(f: string, expected: string, actual: string)
    ensures exists i, j, k ::
              i + |f| <= j && j + |expected| <= k &&
              OccursAt(Message(InvalidType(f, expected, actual)), f, i) &&
              OccursAt(Message(InvalidType(f, expected, actual)), expected, j) &&
              OccursAt(Message(InvalidType(f, expected, actual)), actual, k)
  {
    var m := Message(InvalidType(f, expected, actual));
    var p1 := InvalidTypePrefix;
    var p2 := p1 + f + InvalidTypeExpected;
    var p3 := p2 + expected + InvalidTypeActual;
    assert m == p1 + f + (InvalidTypeExpected + expected + InvalidTypeActual + actual + ".");
    SliceOfConcat(p1, f, InvalidTypeExpected + expected + InvalidTypeActual + actual + ".");
    assert m == p2 + expected + (InvalidTypeActual + actual + ".");
    SliceOfConcat(p2, expected, InvalidTypeActual + actual + ".");
    assert m == p3 + actual + ".";
    SliceOfConcat(p3, actual, ".");
    assert OccursAt(m, f, |p1|) && OccursAt(m, expected, |p2|) && OccursAt(m, actual, |p3|);
  }

  /** InvalidElementTypeError's message names the list field and then the expected element type. */
  lemma InvalidElementTypeMessageOrder(f: string, expected: string)
    ensures exists i, j ::
              i + |f| <= j &&
              OccursAt(Message(InvalidElementType(f, expected)), f, i) &&
              OccursAt(Message(InvalidElementType(f, expected)), expected, j)
  {
    var m := Message(InvalidElementType(f, expected));
    var p1 := InvalidElementPrefix;
    var p2 := p1 + f + InvalidElementExpected;
    assert m == p1 + f + (InvalidElementExpected + expected + ".");
    SliceOfConcat(p1, f, InvalidElementExpected + expected + ".");
    assert m == p2 + expected + ".";
    SliceOfConcat(p2, expected, ".");
    assert OccursAt(m, f, |p1|) && OccursAt(m, expected, |p2|);
  }
}
