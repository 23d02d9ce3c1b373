/** The KEYCODES table (key name to SDK key code) that every layer consults.
    Its contents are not part of this model; it is a parameter, kept as the
    sequence of its entries in the dictionary's iteration order, which the
    reverse lookup of the key-mapping tab depends on. */
module KeyCodes {
  import opened Common

  type KeyTable = seq<(string, int)>

  /** A Python dictionary holds each key once. */
  predicate DistinctNames(t: KeyTable) {
    forall i, j :: 0 <= i < j < |t| ==> t[i].0 != t[j].0
  }

  /** KEYCODES[name], or None where it raises KeyError. */
  function CodeOf(t: KeyTable, name: string): (r: Option<int>)
    ensures r.Some? <==> exists i :: 0 <= i < |t| && t[i].0 == name
    ensures r.Some? ==> exists i :: 0 <= i < |t| && t[i] == (name, r.value)
    decreases |t|
  {
    if t == [] then None
    else if t[0].0 == name then Some(t[0].1)
    else
      var r := CodeOf(t[1..], name);
      assert forall i :: 1 <= i < |t| ==> t[i] == t[1..][i - 1];
      r
  }

  /** The first name, in iteration order, whose code equals `code`:
      next(k for k, v in keycodes.items() if v == code), or None when no
      entry has that code. */
  function NameOf(t: KeyTable, code: int): (r: Option<string>)
    ensures r.Some? <==> exists i :: 0 <= i < |t| && t[i].1 == code
    ensures r.Some? ==> exists i :: 0 <= i < |t| && t[i] == (r.value, code) &&
                                    forall j :: 0 <= j < i ==> t[j].1 != code
    decreases |t|
  {
    if t == [] then None
    else if t[0].1 == code then Some(t[0].0)
    else
      var r := NameOf(t[1..], code);
      assert forall i :: 1 <= i < |t| ==> t[i] == t[1..][i - 1];
      if r.Some? then
        ghost var k :| 0 <= k < |t[1..]| && t[1..][k] == (r.value, code) &&
                      forall j :: 0 <= j < k ==> t[1..][j].1 != code;
        assert t[k + 1] == (r.value, code) && forall j :: 0 <= j < k + 1 ==> t[j].1 != code;
        r
      else r
  }

  /** The name found by the reverse lookup translates back to the code it was
      found for. */
  lemma NameOfThenCodeOf(t: KeyTable, code: int)
    requires DistinctNames(t)
    requires NameOf(t, code).Some?
    ensures CodeOf(t, NameOf(t, code).value) == Some(code)
  {
    var n := NameOf(t, code).value;
    var i :| 0 <= i < |t| && t[i] == (n, code);
    var c := CodeOf(t, n).value;
    var j :| 0 <= j < |t| && t[j] == (n, c);
    if i < j { assert t[i].0 != t[j].0; } else if j < i { assert t[j].0 != t[i].0; }
  }

  /** Every code of the table is found again by the reverse lookup, under the
      first name carrying it. */
  lemma CodeOfThenNameOf(t: KeyTable, name: string)
    requires CodeOf(t, name).Some?
    ensures NameOf(t, CodeOf(t, name).value).Some?
  {
    var i :| 0 <= i < |t| && t[i] == (name, CodeOf(t, name).value);
  }

  /** The translation both the engine and the thread manager apply to a
      configured key: a string is looked up in KEYCODES (None where that
      raises KeyError), any other value is used as the key code unchanged. */
  function Resolve(t: KeyTable, v: Value): (r: Option<Value>)
    ensures v.Str? ==> (r.Some? <==> exists i :: 0 <= i < |t| && t[i].0 == v.s)
    ensures r.Some? && v.Str? ==> r.value.Int? && exists i :: 0 <= i < |t| && t[i] == (v.s, r.value.i)
    ensures !v.Str? ==> r == Some(v)
  {
    if v.Str? then
      match CodeOf(t, v.s)
      case Some(c) => Some(Int(c))
      case None => None
    else Some(v)
  }
}
