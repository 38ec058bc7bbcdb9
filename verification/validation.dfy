/** The two field validators of utils.py. Each either passes or names the
    DataError it raises. */
module Validation {
  import opened Wrappers
  import opened Errors
  import opened Runtime

  /** `validate_str(value, field_name, allow_empty)`: the type check comes
      first, then (unless `allow_empty`) the check that something other than
      whitespace is left after `strip()`. */
  function ValidateStr(v: PyValue, field: string, allowEmpty: bool): (r: Outcome<DataError>)
    ensures r.Pass? <==> v.PStr? && (allowEmpty || exists k :: 0 <= k < |v.s| && !IsSpace(v.s[k]))
    ensures !v.PStr? ==> r == Fail(InvalidType(field, "str", TypeName(v)))
    ensures v.PStr? && r.Fail? ==> r == Fail(EmptyValue(field))
  {
    if !v.PStr? then Fail(InvalidType(field, "str", TypeName(v)))
    else if !allowEmpty && Strip(v.s) == "" then
      StripEmptyIff(v.s);
      Fail(EmptyValue(field))
    else
      StripEmptyIff(v.s);
      Pass
  }

  /** The index of the first element, in order, that is not an instance of `c`. */
  function FirstNonInstance(items: seq<PyValue>, c: PyClass): (r: Option<nat>)
    ensures r.None? <==> forall i :: 0 <= i < |items| ==> IsInstance(items[i], c)
    ensures r.Some? ==> r.value < |items| && !IsInstance(items[r.value], c)
                        && forall j :: 0 <= j < r.value ==> IsInstance(items[j], c)
  {
    if items == [] then None
    else if !IsInstance(items[0], c) then Some(0)
    else
      match FirstNonInstance(items[1..], c)
      case None =>
        assert forall i :: 0 < i < |items| ==> items[i] == items[1..][i - 1];
        None
      case Some(k) =>
        assert forall j :: 0 < j <= k ==> items[j] == items[1..][j - 1];
        Some(k + 1)
  }

  /** `validate_list(value, field_name, expected_type)`: a non-list raises
      InvalidTypeError naming `List[<class repr>]`; otherwise the first
      element that is not an instance of `c` (subclasses count) raises
      InvalidElementTypeError. */
  function ValidateList(v: PyValue, field: string, c: PyClass): (r: Outcome<DataError>)
    ensures r.Pass? <==> v.PList? && forall i :: 0 <= i < |v.items| ==> IsInstance(v.items[i], c)
    ensures !v.PList? ==> r == Fail(InvalidType(field, "List[" + ClassRepr(c) + "]", TypeName(v)))
    ensures v.PList? && r.Fail? ==> r == Fail(InvalidElementType(field, ClassName(c)))
  {
    if !v.PList? then Fail(InvalidType(field, "List[" + ClassRepr(c) + "]", TypeName(v)))
    else if FirstNonInstance(v.items, c).Some? then Fail(InvalidElementType(field, ClassName(c)))
    else Pass
  }

  /** A non-string never produces EmptyValueError: the type check runs first. */
  lemma TypeCheckFirst(v: PyValue, field: string, allowEmpty: bool)
    requires !v.PStr?
    ensures ValidateStr(v, field, allowEmpty).Fail?
    ensures !ValidateStr(v, field, allowEmpty).error.EmptyValue?
  {
  }

  /** With `allow_empty` every string passes, blank or not. */
  lemma AllowEmptyAcceptsEveryString(s: string, field: string)
    ensures ValidateStr(PStr(s), field, true) == Pass
  {
  }

  /** An empty list passes whatever element type is expected. */
  lemma EmptyListPasses(field: string, c: PyClass)
    ensures ValidateList(PList([]), field, c) == Pass
  {
  }

  /** Subclass instances pass: a list of bools is a valid list of ints. */
  lemma SubclassElementsPass(bs: seq<bool>, field: string)
    ensures ValidateList(PList(seq(|bs|, i requires 0 <= i < |bs| => PBool(bs[i]))), field, IntClass) == Pass
  {
  }
}
