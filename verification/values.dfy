/** The format-neutral value tree that `serialize` produces and `deserialize`
    consumes, with the Python built-in behaviour the modelled code applies to
    such values: truthiness, `==`, hashing into a set, `in`, `.copy()`,
    `.append()`, iteration, `dict.get`, `dict[...]`, `str()` and `repr()`. */
module Values {
  import opened Wrappers
  import opened Errors

  /** A JSON-like value; `Map` keeps insertion order, as a Python dict does. */
  datatype Value =
    | Str(s: string)
    | Int(i: int)
    | Bool(b: bool)
    | Null
    | List(items: seq<Value>)
    | Map(entries: seq<(string, Value)>)

  const EmptyList: Value := List([])

  /** Python truthiness. */
  predicate Truthy(v: Value) {
    match v
    case Str(s) => s != ""
    case Int(n) => n != 0
    case Bool(b) => b
    case Null => false
    case List(xs) => xs != []
    case Map(m) => m != []
  }

  /** Python's `a or b`. */
  function Or(a: Value, b: Value): Value {
    if Truthy(a) then a else b
  }

  /** The number an int or a bool stands for (`True == 1`). */
  function Numeric(v: Value): Option<int> {
    match v
    case Int(n) => Some(n)
    case Bool(b) => Some(if b then 1 else 0)
    case _ => None
  }

  /** Python's `a == b` on tree values: numbers compare across int and bool,
      lists element-wise, dicts as mappings regardless of key order. */
  predicate PyEq(a: Value, b: Value)
    decreases a, 0
  {
    match a
    case Str(s) => b.Str? && b.s == s
    case Null => b.Null?
    case Int(_) => Numeric(b).Some? && Numeric(b) == Numeric(a)
    case Bool(_) => Numeric(b).Some? && Numeric(b) == Numeric(a)
    case List(xs) =>
      b.List? && |xs| == |b.items| &&
      forall i :: 0 <= i < |xs| ==> PyEq(xs[i], b.items[i])
    case Map(m) =>
      b.Map? && |m| == |b.entries| &&
      forall i :: 0 <= i < |m| ==> HasEntry(b.entries, m[i].0, m[i].1)
  }

  /** Some entry has key `k` and a value equal to `v`. */
  predicate HasEntry(entries: seq<(string, Value)>, k: string, v: Value)
    decreases v, 1, |entries|
  {
    entries != [] &&
    ((entries[0].0 == k && PyEq(v, entries[0].1)) || HasEntry(entries[1..], k, v))
  }

  /** Every value equals itself. */
  lemma {:induction false} PyEqReflexive(x: Value)
    ensures PyEq(x, x)
    decreases x
  {
    match x
    case List(xs) =>
      forall i | 0 <= i < |xs| ensures PyEq(xs[i], xs[i]) { PyEqReflexive(xs[i]); }
    case Map(m) =>
      forall i | 0 <= i < |m| ensures HasEntry(m, m[i].0, m[i].1) {
        PyEqReflexive(m[i].1);
        HasEntryAt(m, i);
      }
    case _ =>
  }

  lemma {:induction false} HasEntryAt(entries: seq<(string, Value)>, k: nat)
    requires k < |entries| && PyEq(entries[k].1, entries[k].1)
    ensures HasEntry(entries, entries[k].0, entries[k].1)
  {
    if k > 0 {
      HasEntryAt(entries[1..], k - 1);
    }
  }

  /** Scalars are hashable; lists and dicts are not. */
  predicate Hashable(v: Value) {
    !v.List? && !v.Map?
  }

  /** What a Python set sees of a value: its hash-equality class. */
  datatype Key = StrKey(s: string) | NumKey(n: int) | NoneKey | Unhashable

  function KeyOf(v: Value): Key {
    match v
    case Str(s) => StrKey(s)
    case Int(n) => NumKey(n)
    case Bool(b) => NumKey(if b then 1 else 0)
    case Null => NoneKey
    case _ => Unhashable
  }

  /** On hashable values, Python equality is equality of keys. */
  lemma PyEqHashable(a: Value, b: Value)
    requires Hashable(a) && Hashable(b)
    ensures PyEq(a, b) <==> KeyOf(a) == KeyOf(b)
  {
  }

  // ---------------------------------------------------------------- dicts

  /** The value stored under `key`, if any (dict keys are unique, so the first match is the one). */
  function Lookup(entries: seq<(string, Value)>, key: string): (r: Option<Value>)
    ensures r.Some? <==> exists i :: 0 <= i < |entries| && entries[i].0 == key
    ensures r.Some? ==> exists i :: 0 <= i < |entries| && entries[i] == (key, r.value)
  {
    if entries == [] then None
    else if entries[0].0 == key then Some(entries[0].1)
    else
      var r := Lookup(entries[1..], key);
      assert forall i :: 0 < i < |entries| ==> entries[i] == entries[1..][i - 1];
      r
  }

  /** `d[key] = v`: overwrites in place if the key is present, appends otherwise. */
  function Assign(entries: seq<(string, Value)>, key: string, v: Value): (r: seq<(string, Value)>)
    ensures Lookup(r, key) == Some(v)
    ensures forall k :: k != key ==> Lookup(r, k) == Lookup(entries, k)
  {
    if entries == [] then [(key, v)]
    else if entries[0].0 == key then [(key, v)] + entries[1..]
    else [entries[0]] + Assign(entries[1..], key, v)
  }

  /** `d.get(key, default)`; only a dict has `.get`. */
  function DictGet(d: Value, key: string, default: Value): (r: Result<Value, PyError>)
    ensures d.Map? ==> r == Success(Get(d.entries, key, default))
    ensures !d.Map? ==> r == Failure(AttributeError("get"))
  {
    if !d.Map? then Failure(AttributeError("get")) else Success(Get(d.entries, key, default))
  }

  /** `d.get(key, default)` on a value already known to be a dict. */
  function Get(entries: seq<(string, Value)>, key: string, default: Value): Value {
    match Lookup(entries, key)
    case Some(v) => v
    case None => default
  }

  /** The first entry with a given key is the one found. */
  lemma {:induction false} LookupFirst(entries: seq<(string, Value)>, k: nat)
    requires k < |entries|
    requires forall j :: 0 <= j < k ==> entries[j].0 != entries[k].0
    ensures Lookup(entries, entries[k].0) == Some(entries[k].1)
  {
    if k > 0 {
      LookupFirst(entries[1..], k - 1);
    }
  }

  /** In an entry list with distinct keys every entry is found under its key,
      and a key no entry carries is not found. */
  lemma LookupDistinct(entries: seq<(string, Value)>, key: string)
    requires forall i, j :: 0 <= i < j < |entries| ==> entries[i].0 != entries[j].0
    ensures forall k :: 0 <= k < |entries| && entries[k].0 == key ==> Lookup(entries, key) == Some(entries[k].1)
    ensures (forall k :: 0 <= k < |entries| ==> entries[k].0 != key) ==> Lookup(entries, key).None?
  {
    forall k | 0 <= k < |entries| && entries[k].0 == key
      ensures Lookup(entries, key) == Some(entries[k].1)
    {
      LookupFirst(entries, k);
    }
  }

  /** `d[key]`: a missing key raises KeyError, indexing a non-dict raises TypeError. */
  function DictIndex(d: Value, key: string): (r: Result<Value, PyError>)
    ensures r.Success? <==> d.Map? && Lookup(d.entries, key).Some?
    ensures r.Success? ==> r.value == Lookup(d.entries, key).value
    ensures d.Map? && r.Failure? ==> r.error == KeyError(key)
  {
    if !d.Map? then Failure(TypeError("subscript"))
    else
      match Lookup(d.entries, key)
      case Some(v) => Success(v)
      case None => Failure(KeyError(key))
  }

  // ------------------------------------------------ list / str operations

  /** `v.copy()`: lists and dicts copy themselves; other values have no `.copy`. */
  function Copy(v: Value): (r: Result<Value, PyError>)
    ensures r.Success? <==> v.List? || v.Map?
    ensures r.Success? ==> r.value == v
  {
    if v.List? || v.Map? then Success(v) else Failure(AttributeError("copy"))
  }

  function KeysOf(entries: seq<(string, Value)>): (r: seq<Value>)
    ensures |r| == |entries| && forall i :: 0 <= i < |r| ==> r[i] == Str(entries[i].0)
  {
    seq(|entries|, i requires 0 <= i < |entries| => Str(entries[i].0))
  }

  function CharsOf(s: string): (r: seq<Value>)
    ensures |r| == |s| && forall i :: 0 <= i < |r| ==> r[i] == Str([s[i]])
  {
    seq(|s|, i requires 0 <= i < |s| => Str([s[i]]))
  }

  /** What `for x in v` visits: list items, dict keys, or one-character strings. */
  function Iterate(v: Value): (r: Result<seq<Value>, PyError>)
    ensures r.Success? <==> v.List? || v.Map? || v.Str?
    ensures v.List? ==> r == Success(v.items)
  {
    match v
    case List(xs) => Success(xs)
    case Map(m) => Success(KeysOf(m))
    case Str(s) => Success(CharsOf(s))
    case _ => Failure(TypeError("not iterable"))
  }

  predicate PrefixAt(s: string, t: string, i: int) {
    0 <= i && i + |t| <= |s| && s[i..i + |t|] == t
  }

  /** Python's `t in s` on strings. */
  predicate IsSubstring(t: string, s: string) {
    exists i :: 0 <= i <= |s| && PrefixAt(s, t, i)
  }

  /** Python's `x in container`. */
  function Contains(container: Value, x: Value): (r: Result<bool, PyError>)
    ensures container.List? ==> r == Success(exists i :: 0 <= i < |container.items| && PyEq(x, container.items[i]))
    ensures r.Failure? <==> !container.List? && !(container.Map? && Hashable(x)) && !(container.Str? && x.Str?)
  {
    match container
    case List(xs) => Success(exists i :: 0 <= i < |xs| && PyEq(x, xs[i]))
    case Map(m) =>
      if !Hashable(x) then Failure(TypeError("unhashable type"))
      else Success(x.Str? && Lookup(m, x.s).Some?)
    case Str(s) =>
      if x.Str? then Success(IsSubstring(x.s, s)) else Failure(TypeError("requires string as left operand"))
    case _ => Failure(TypeError("argument is not iterable"))
  }

  /** `container.append(x)`: only lists have `.append`. */
  function Append(container: Value, x: Value): (r: Result<Value, PyError>)
    ensures r.Success? <==> container.List?
    ensures r.Success? ==> r.value == List(container.items + [x])
  {
    if container.List? then Success(List(container.items + [x])) else Failure(AttributeError("append"))
  }

  // ---------------------------------------------------------------- sets

  predicate HasKey(acc: seq<Value>, k: Key) {
    exists y :: y in acc && KeyOf(y) == k
  }

  predicate DistinctKeys(r: seq<Value>) {
    forall i, j :: 0 <= i < j < |r| ==> KeyOf(r[i]) != KeyOf(r[j])
  }

  function SetInto(acc: seq<Value>, xs: seq<Value>): (r: seq<Value>)
    requires DistinctKeys(acc)
    ensures DistinctKeys(r)
    ensures forall y :: y in r ==> y in acc || y in xs
    ensures forall x :: x in acc || x in xs ==> HasKey(r, KeyOf(x))
    decreases |xs|
  {
    if xs == [] then acc
    else if HasKey(acc, KeyOf(xs[0])) then
      var r := SetInto(acc, xs[1..]);
      assert forall x :: x in xs ==> x == xs[0] || x in xs[1..];
      r
    else
      var acc' := acc + [xs[0]];
      assert DistinctKeys(acc') by {
        forall i, j | 0 <= i < j < |acc'| ensures KeyOf(acc'[i]) != KeyOf(acc'[j]) {
          if j == |acc| { assert acc'[i] in acc; }
        }
      }
      var r := SetInto(acc', xs[1..]);
      assert forall x :: x in xs ==> x == xs[0] || x in xs[1..];
      r
  }

  /** `y` is one of `xs` (named, so that a quantifier can be told to fire on it). */
  predicate Among(xs: seq<Value>, y: Value) {
    y in xs
  }

  /** `list(set(xs))` for hashable `xs`: one representative per equality class.
      Python's iteration order over the set depends on hashing; the model keeps
      the first occurrence of each class in input order. */
  function SetOf(xs: seq<Value>): (r: seq<Value>)
    requires forall x :: x in xs ==> Hashable(x)
    ensures forall i {:trigger Among(xs, r[i])} :: 0 <= i < |r| ==> Among(xs, r[i])
    ensures forall x :: x in xs ==> exists i :: 0 <= i < |r| && PyEq(x, r[i])
    ensures forall i, j :: 0 <= i < j < |r| ==> !PyEq(r[i], r[j])
  {
    var r := SetInto([], xs);
    forall x | x in xs ensures exists i :: 0 <= i < |r| && PyEq(x, r[i]) {
      var y :| y in r && KeyOf(y) == KeyOf(x);
      PyEqHashable(x, y);
      var i :| 0 <= i < |r| && r[i] == y;
    }
    forall i, j | 0 <= i < j < |r| ensures !PyEq(r[i], r[j]) {
      assert r[i] in xs && r[j] in xs;
      PyEqHashable(r[i], r[j]);
    }
    r
  }

  // ------------------------------------------------------ str() and repr()

  function DigitChar(d: nat): char
    requires d < 10
  {
    "0123456789"[d]
  }

  function NatToDecimal(n: nat): (r: string)
    ensures |r| > 0
    decreases n
  {
    if n < 10 then [DigitChar(n)] else NatToDecimal(n / 10) + [DigitChar(n % 10)]
  }

  function IntToDecimal(n: int): string {
    if n < 0 then "-" + NatToDecimal(-n) else NatToDecimal(n)
  }

  function HexDigit(d: nat): char
    requires d < 16
  {
    "0123456789abcdef"[d]
  }

  /** How `repr` writes one character of a string quoted with `quote`. */
  function EscapeChar(c: char, quote: char): string {
    if c == '\\' then "\\\\"
    else if c == quote then ['\\', quote]
    else if c == '\t' then "\\t"
    else if c == '\n' then "\\n"
    else if c == '\r' then "\\r"
    else if c < ' ' || ('\U{7f}' <= c <= '\U{a0}') || c == '\U{ad}' then
      "\\x" + [HexDigit(c as int / 16), HexDigit(c as int % 16)]
    else [c]
  }

  function EscapeAll(s: string, quote: char): string {
    if s == [] then "" else EscapeChar(s[0], quote) + EscapeAll(s[1..], quote)
  }

  /** `repr` of a string: single quotes unless the text holds `'` and no `"`. */
  function ReprString(s: string): string {
    var quote := if '\'' in s && '"' !in s then '"' else '\'';
    [quote] + EscapeAll(s, quote) + [quote]
  }

  function JoinWith(sep: string, parts: seq<string>): string {
    if parts == [] then ""
    else if |parts| == 1 then parts[0]
    else parts[0] + sep + JoinWith(sep, parts[1..])
  }

  /** Python's `repr(v)`. */
  function Repr(v: Value): string
    decreases v, 1
  {
    match v
    case Str(s) => ReprString(s)
    case _ => ToStr(v)
  }

  /** Python's `str(v)`. */
  function ToStr(v: Value): string
    decreases v, 0
  {
    match v
    case Str(s) => s
    case Int(n) => IntToDecimal(n)
    case Bool(b) => if b then "True" else "False"
    case Null => "None"
    case List(xs) => "[" + JoinWith(", ", seq(|xs|, i requires 0 <= i < |xs| => Repr(xs[i]))) + "]"
    case Map(m) =>
      "{" + JoinWith(", ", seq(|m|, i requires 0 <= i < |m| => ReprString(m[i].0) + ": " + Repr(m[i].1))) + "}"
  }
}
