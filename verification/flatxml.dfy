/** The flat XML codec of main.py:101-136. `save` writes one `<item>` per
    serialised object and one child element per key, whose text is `str()` of
    the value, or the `str()` of the elements joined by "," for a list.
    `load` reads every child's text back: text holding a "," is split into a
    list of strings, anything else is kept as a single string, and an element
    with no text becomes None. The file, ElementTree and minidom are left
    out; what they do to a text is modelled by `Transport`. */
module FlatXml {
  import opened Wrappers
  import opened Values

  // ------------------------------------------------------- splitting on ","

  /** `s.split(",")`: always at least one part, no part holds a ",", and
      joining the parts back with "," gives `s`. */
  function Split(s: string): (r: seq<string>)
    ensures |r| >= 1
    ensures forall i :: 0 <= i < |r| ==> ',' !in r[i]
    ensures JoinWith(",", r) == s
  {
    if s == [] then [""]
    else
      var rest := Split(s[1..]);
      if s[0] == ',' then
        assert ([""] + rest)[1..] == rest;
        [""] + rest
      else
        var r := [[s[0]] + rest[0]] + rest[1..];
        assert r[1..] == rest[1..];
        assert s == [s[0]] + s[1..];
        r
  }

  /** A text with no "," is a single part. */
  lemma {:induction false} SplitPlain(a: string)
    requires ',' !in a
    ensures Split(a) == [a]
    decreases |a|
  {
    if a != [] {
      SplitPlain(a[1..]);
      assert a == [a[0]] + a[1..];
    }
  }

  /** The text before the first "," is the first part. */
  lemma {:induction false} SplitFirst(a: string, t: string)
    requires ',' !in a
    ensures Split(a + [','] + t) == [a] + Split(t)
    decreases |a|
  {
    var s := a + [','] + t;
    if a == [] {
      assert s[1..] == t;
    } else {
      assert s[1..] == a[1..] + [','] + t;
      SplitFirst(a[1..], t);
      assert a == [a[0]] + a[1..];
    }
  }

  /** Splitting undoes joining when no part holds a ",". */
  lemma {:induction false} SplitJoin(parts: seq<string>)
    requires |parts| >= 1
    requires forall i :: 0 <= i < |parts| ==> ',' !in parts[i]
    ensures Split(JoinWith(",", parts)) == parts
    decreases |parts|
  {
    if |parts| == 1 {
      SplitPlain(parts[0]);
    } else {
      SplitJoin(parts[1..]);
      SplitFirst(parts[0], JoinWith(",", parts[1..]));
      assert parts == [parts[0]] + parts[1..];
    }
  }

  /** A text that splits into a single part holds no ",". */
  lemma SingleSplitHasNoComma(s: string)
    ensures |Split(s)| == 1 ==> ',' !in s
  {
    if |Split(s)| == 1 {
      assert JoinWith(",", Split(s)) == Split(s)[0];
    }
  }

  /** Two or more parts joined with "," hold a ",". */
  lemma JoinHasComma(parts: seq<string>)
    ensures |parts| >= 2 ==> ',' in JoinWith(",", parts)
  {
    if |parts| >= 2 {
      assert JoinWith(",", parts)[|parts[0]|] == ',';
    }
  }

  // ------------------------------------------------------------ one field

  /** The text `save` gives the element of one value. */
  function EncodeField(v: Value): (r: string)
    ensures !v.List? ==> r == ToStr(v)
    ensures v.List? ==> r == JoinWith(",", seq(|v.items|, i requires 0 <= i < |v.items| => ToStr(v.items[i])))
    ensures v.List? && v.items == [] ==> r == ""
    ensures v.List? && |v.items| >= 2 ==> ',' in r
  {
    match v
    case List(xs) =>
      var parts := seq(|xs|, i requires 0 <= i < |xs| => ToStr(xs[i]));
      JoinHasComma(parts);
      JoinWith(",", parts)
    case _ => ToStr(v)
  }

  /** What the element's text is once written and parsed again: an empty
      text leaves an empty element, which parses with no text at all. */
  function Transport(text: string): (r: Option<string>)
    ensures r.None? <==> text == ""
    ensures r.Some? ==> r.value == text
  {
    if text == "" then None else Some(text)
  }

  /** The strings of `parts`, as the list `str.split` returns. */
  function StrList(parts: seq<string>): (r: Value)
    ensures r.List? && |r.items| == |parts|
    ensures forall i :: 0 <= i < |parts| ==> r.items[i] == Str(parts[i])
  {
    List(seq(|parts|, i requires 0 <= i < |parts| => Str(parts[i])))
  }

  /** The value `load` reads from one element's text. */
  function DecodeField(text: Option<string>): (r: Value)
    ensures text.None? ==> r == Null
    ensures text.Some? && ',' !in text.value ==> r == Str(text.value)
    ensures text.Some? && ',' in text.value ==>
              r.List? && |r.items| >= 2 && JoinWith(",", StringsOf(r.items)) == text.value
  {
    match text
    case None => Null
    case Some(s) =>
      if s != "" && ',' in s then
        var parts := Split(s);
        var r := StrList(parts);
        SingleSplitHasNoComma(s);
        assert StringsOf(r.items) == parts;
        r
      else Str(s)
  }

  /** The texts of a list of strings. */
  function StringsOf(items: seq<Value>): (r: seq<string>)
    ensures |r| == |items|
    ensures forall i :: 0 <= i < |items| && items[i].Str? ==> r[i] == items[i].s
  {
    seq(|items|, i requires 0 <= i < |items| => if items[i].Str? then items[i].s else "")
  }

  /** What a value becomes after a save and a load. */
  function Reload(v: Value): Value {
    DecodeField(Transport(EncodeField(v)))
  }

  /** The values a save and a load give back unchanged: a non-empty string
      with no ",", or a list of two or more such strings (empty ones allowed). */
  predicate SurvivesXml(v: Value) {
    || (v.Str? && v.s != "" && ',' !in v.s)
    || (v.List? && |v.items| >= 2 && forall i :: 0 <= i < |v.items| ==> v.items[i].Str? && ',' !in v.items[i].s)
  }

  /** Exactly the values of `SurvivesXml` come back unchanged. */
  lemma ReloadIdentityIff(v: Value)
    ensures Reload(v) == v <==> SurvivesXml(v)
  {
    if v.List? {
      var xs := v.items;
      var parts := seq(|xs|, i requires 0 <= i < |xs| => ToStr(xs[i]));
      var text := EncodeField(v);
      assert text == JoinWith(",", parts);
      if SurvivesXml(v) {
        SplitJoin(parts);
        assert StrList(parts) == v;
      }
      if Reload(v) == v {
        assert text != "" && ',' in text;
        var back := Split(text);
        assert StrList(back) == v;
        SingleSplitHasNoComma(text);
      }
    }
  }

  /** Scalars come back as their `str()` text. */
  lemma ScalarsComeBackAsText(n: int, b: bool)
    ensures Reload(Int(n)) == Str(IntToDecimal(n))
    ensures Reload(Bool(b)) == Str(if b then "True" else "False")
    ensures Reload(Null) == Str("None")
  {
    assert IntToDecimal(n) != "" && ',' !in IntToDecimal(n) by { DecimalDigitsOnly(n); }
  }

  lemma DecimalDigitsOnly(n: int)
    ensures IntToDecimal(n) != "" && ',' !in IntToDecimal(n)
  {
    if n < 0 { NatDigitsOnly(-n); } else { NatDigitsOnly(n); }
  }

  lemma {:induction false} NatDigitsOnly(n: nat)
    ensures ',' !in NatToDecimal(n)
    decreases n
  {
    if n >= 10 { NatDigitsOnly(n / 10); }
  }

  /** A one-element list does not always come back as its string: `[""]`
      is written as "" and comes back as None, and `["a,b"]` comes back as
      the two-element list. */
  lemma SingletonEdgeCases()
    ensures Reload(List([Str("")])) == Null
    ensures Reload(List([Str("a,b")])) == StrList(["a", "b"])
  {
    assert EncodeField(List([Str("")])) == "";
    assert EncodeField(List([Str("a,b")])) == "a,b";
    assert Split("a,b") == ["a", "b"] by {
      SplitJoin(["a", "b"]);
    }
  }

  /** An empty string or an empty list comes back as None, a one-element
      list of a plain string as that string. */
  lemma EmptyAndSingletonCollapse(s: string)
    requires s != "" && ',' !in s
    ensures Reload(Str("")) == Null
    ensures Reload(EmptyList) == Null
    ensures Reload(List([Str(s)])) == Str(s)
  {
    assert EncodeField(List([Str(s)])) == s;
  }

  /** A string holding a "," comes back as the list of its parts. */
  lemma CommaTextBecomesList(s: string)
    requires ',' in s
    ensures Reload(Str(s)) == StrList(Split(s))
  {
  }

  // -------------------------------------------------------- one item

  /** No tag occurs twice. */
  predicate DistinctTags<T>(xs: seq<(string, T)>) {
    forall i, j :: 0 <= i < j < |xs| ==> xs[i].0 != xs[j].0
  }

  /** The children `save` writes for one serialised object, in key order. */
  function SaveItem(entries: seq<(string, Value)>): (r: seq<(string, string)>)
    ensures |r| == |entries|
    ensures forall i :: 0 <= i < |r| ==> r[i].0 == entries[i].0
    ensures forall i :: 0 <= i < |r| ==> r[i].1 == EncodeField(entries[i].1)
  {
    seq(|entries|, i requires 0 <= i < |entries| => (entries[i].0, EncodeField(entries[i].1)))
  }

  /** The children of one item as the parser hands them back. */
  function ParseItem(children: seq<(string, string)>): (r: seq<(string, Option<string>)>)
    ensures |r| == |children|
    ensures forall i :: 0 <= i < |r| ==> r[i].0 == children[i].0
  {
    seq(|children|, i requires 0 <= i < |children| => (children[i].0, Transport(children[i].1)))
  }

  /** The last child with a given tag is at index `i`. */
  predicate LastWithTag<T>(children: seq<(string, T)>, i: int) {
    0 <= i < |children| && forall j :: i < j < |children| ==> children[j].0 != children[i].0
  }

  /** `load` of one item: each child in turn assigns `item_data[tag]`. */
  function LoadItem(children: seq<(string, Option<string>)>): (r: seq<(string, Value)>)
    ensures children != [] ==> Lookup(r, children[|children| - 1].0) == Some(DecodeField(children[|children| - 1].1))
    decreases |children|
  {
    if children == [] then []
    else
      var n := |children| - 1;
      Assign(LoadItem(children[..n]), children[n].0, DecodeField(children[n].1))
  }

  /** Some child carries tag `k`. */
  predicate HasTag<T>(children: seq<(string, T)>, k: string) {
    exists i :: 0 <= i < |children| && children[i].0 == k
  }

  /** Every tag becomes a key, and a key comes only from a tag. */
  lemma {:induction false} LoadItemKeys(children: seq<(string, Option<string>)>, k: string)
    ensures Lookup(LoadItem(children), k).Some? <==> HasTag(children, k)
    decreases |children|
  {
    if children != [] {
      var n := |children| - 1;
      var prefix := children[..n];
      LoadItemKeys(prefix, k);
      HasTagSplit(children, k);
      assert LoadItem(children) == Assign(LoadItem(prefix), children[n].0, DecodeField(children[n].1));
      if children[n].0 != k {
        assert Lookup(LoadItem(children), k) == Lookup(LoadItem(prefix), k);
      }
    }
  }

  /** A tag occurs in a non-empty list iff it occurs before the last child
      or on it. */
  lemma HasTagSplit<T>(children: seq<(string, T)>, k: string)
    requires children != []
    ensures HasTag(children, k) <==> HasTag(children[..|children| - 1], k) || children[|children| - 1].0 == k
  {
    var n := |children| - 1;
    var prefix := children[..n];
    if HasTag(children, k) && children[n].0 != k {
      var i :| 0 <= i < |children| && children[i].0 == k;
      assert prefix[i].0 == k;
    }
    if HasTag(prefix, k) {
      var i :| 0 <= i < |prefix| && prefix[i].0 == k;
      assert children[i].0 == k;
    }
  }

  /** A later child with the same tag overwrites an earlier one: the last
      child with a tag gives that key its value. */
  lemma {:induction false} LoadItemLastWins(children: seq<(string, Option<string>)>, i: int)
    requires LastWithTag(children, i)
    ensures Lookup(LoadItem(children), children[i].0) == Some(DecodeField(children[i].1))
    decreases |children|
  {
    var n := |children| - 1;
    if i < n {
      var prefix := children[..n];
      var key := children[i].0;
      LastWithTagPrefix(children, i);
      LoadItemLastWins(prefix, i);
      assert prefix[i] == children[i];
      assert children[n].0 != key;
      LoadItemStep(children);
    }
  }

  /** Dropping the last child keeps an earlier child the last with its tag. */
  lemma LastWithTagPrefix<T>(children: seq<(string, T)>, i: int)
    requires LastWithTag(children, i) && i < |children| - 1
    ensures LastWithTag(children[..|children| - 1], i)
  {
    var prefix := children[..|children| - 1];
    forall j | i < j < |prefix| ensures prefix[j].0 != prefix[i].0 {
      assert prefix[j] == children[j];
    }
  }

  /** `load` of a non-empty item assigns the last child over the rest. */
  lemma LoadItemStep(children: seq<(string, Option<string>)>)
    requires children != []
    ensures var n := |children| - 1;
            LoadItem(children) == Assign(LoadItem(children[..n]), children[n].0, DecodeField(children[n].1))
  {
  }

  /** Assigning a new key appends it. */
  lemma {:induction false} AssignNew(entries: seq<(string, Value)>, key: string, v: Value)
    requires Lookup(entries, key).None?
    ensures Assign(entries, key, v) == entries + [(key, v)]
    decreases |entries|
  {
    if entries != [] {
      assert entries[0].0 != key;
      assert Lookup(entries[1..], key) == Lookup(entries, key);
      AssignNew(entries[1..], key, v);
      assert entries == [entries[0]] + entries[1..];
    }
  }

  /** Each child as the pair `load` would store for it, in order. */
  function DecodedPairs(children: seq<(string, Option<string>)>): (r: seq<(string, Value)>)
    ensures |r| == |children|
    ensures forall i :: 0 <= i < |r| ==> r[i] == (children[i].0, DecodeField(children[i].1))
  {
    seq(|children|, i requires 0 <= i < |children| => (children[i].0, DecodeField(children[i].1)))
  }

  /** A key no entry carries is not found. */
  lemma LookupAbsent(entries: seq<(string, Value)>, key: string)
    requires forall i :: 0 <= i < |entries| ==> entries[i].0 != key
    ensures Lookup(entries, key).None?
  {
  }

  /** With distinct tags the loaded dict holds the children in order. */
  lemma {:induction false} LoadDistinct(children: seq<(string, Option<string>)>)
    requires DistinctTags(children)
    ensures LoadItem(children) == DecodedPairs(children)
    decreases |children|
  {
    if children != [] {
      var n := |children| - 1;
      var prefix := children[..n];
      var last := (children[n].0, DecodeField(children[n].1));
      assert DistinctTags(prefix);
      LoadDistinct(prefix);
      LookupAbsent(DecodedPairs(prefix), children[n].0);
      AssignNew(DecodedPairs(prefix), last.0, last.1);
      assert DecodedPairs(children) == DecodedPairs(prefix) + [last];
    }
  }

  /** One object's dict after a save and a load: the same keys in the same
      order, each value replaced by what `Reload` gives for it. */
  lemma ItemRoundTrip(entries: seq<(string, Value)>)
    requires DistinctTags(entries)
    ensures LoadItem(ParseItem(SaveItem(entries))) ==
            seq(|entries|, i requires 0 <= i < |entries| => (entries[i].0, Reload(entries[i].1)))
  {
    var parsed := ParseItem(SaveItem(entries));
    assert DistinctTags(parsed);
    LoadDistinct(parsed);
  }

  // ---------------------------------------------------------- whole file

  /** `save(data, filename)`: one item per serialised object. */
  function Save(data: seq<seq<(string, Value)>>): (r: seq<seq<(string, string)>>)
    ensures |r| == |data|
    ensures forall i :: 0 <= i < |data| ==> r[i] == SaveItem(data[i])
  {
    seq(|data|, i requires 0 <= i < |data| => SaveItem(data[i]))
  }

  /** `load(filename)` on the parsed document: one dict per item, in order. */
  function Load(doc: seq<seq<(string, Option<string>)>>): (r: seq<seq<(string, Value)>>)
    ensures |r| == |doc|
    ensures forall i :: 0 <= i < |doc| ==> r[i] == LoadItem(doc[i])
  {
    seq(|doc|, i requires 0 <= i < |doc| => LoadItem(doc[i]))
  }

  function Parse(doc: seq<seq<(string, string)>>): (r: seq<seq<(string, Option<string>)>>)
    ensures |r| == |doc|
    ensures forall i :: 0 <= i < |doc| ==> r[i] == ParseItem(doc[i])
  {
    seq(|doc|, i requires 0 <= i < |doc| => ParseItem(doc[i]))
  }

  /** A whole file: as many dicts as objects saved, each with its keys in
      order, and a value unchanged exactly when `SurvivesXml` holds of it. */
  lemma FileRoundTrip(data: seq<seq<(string, Value)>>)
    requires forall i :: 0 <= i < |data| ==> DistinctTags(data[i])
    ensures |Load(Parse(Save(data)))| == |data|
    ensures forall i :: 0 <= i < |data| ==>
              |Load(Parse(Save(data)))[i]| == |data[i]|
              && forall j :: 0 <= j < |data[i]| ==>
                   Load(Parse(Save(data)))[i][j] == (data[i][j].0, Reload(data[i][j].1))
  {
    forall i | 0 <= i < |data| { ItemRoundTrip(data[i]); }
  }
}
