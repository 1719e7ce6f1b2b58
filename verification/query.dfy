/**
 * `_construct_search_query`, identical in both enrichment services: the
 * truthy values among Name, BillingStreet, BillingCity and BillingCountry,
 * then the constant "Restaurant", joined with single spaces and stripped.
 */
module Query {
  import opened Py

  const Suffix: string := "Restaurant"

  predicate EndsWith(s: string, t: string) {
    |t| <= |s| && s[|s| - |t|..] == t
  }

  /** `[p for p in parts if p]` */
  function Kept(parts: seq<Value>): (r: seq<Value>)
    ensures |r| <= |parts|
    ensures forall v :: v in r <==> v in parts && Truthy(v)
    decreases |parts|
  {
    if parts == [] then []
    else (if Truthy(parts[0]) then [parts[0]] else []) + Kept(parts[1..])
  }

  /** The address fields of an account, in query order. */
  function AddressParts(account: Dict): seq<Value> {
    [Get(account, "Name"), Get(account, "BillingStreet"), Get(account, "BillingCity"), Get(account, "BillingCountry")]
  }

  /** `_construct_search_query(account)`; joining raises a `TypeError` when a kept field is not a `str`. */
  function ConstructSearchQuery(account: Dict): (r: Result<string>)
    ensures r.Ok? ==> EndsWith(r.value, Suffix) && r.value != ""
    ensures r.Raised? <==> exists v :: v in AddressParts(account) && Truthy(v) && !v.VStr?
  {
    var kept := Kept(AddressParts(account) + [VStr(Suffix)]);
    KeptWithSuffix(AddressParts(account));
    KeptRaises(AddressParts(account), kept);
    match JoinValues(" ", kept)
    case Raised(msg) => Raised(msg)
    case Ok(joined) =>
      JoinEndsWithLast(" ", Texts(kept));
      StripKeepsSuffix(joined, Suffix);
      Ok(Strip(joined))
  }

  /** Joining the kept parts fails exactly when a truthy address part is not a string. */
  lemma KeptRaises(parts: seq<Value>, kept: seq<Value>)
    requires kept == Kept(parts + [VStr(Suffix)])
    ensures JoinValues(" ", kept).Raised? <==> exists v :: v in parts && Truthy(v) && !v.VStr?
  {
    if exists v :: v in parts && Truthy(v) && !v.VStr? {
      var v :| v in parts && Truthy(v) && !v.VStr?;
      assert v in parts + [VStr(Suffix)];
      var k :| 0 <= k < |kept| && kept[k] == v;
    }
    if JoinValues(" ", kept).Raised? {
      var k :| 0 <= k < |kept| && !kept[k].VStr?;
      assert kept[k] in kept;
      assert kept[k] in parts + [VStr(Suffix)];
    }
  }

  /**
   * Keeping distributes over concatenation: together with `KeptOne`, the
   * kept parts keep their order and their repeats.
   */
  lemma {:induction false} KeptAppend(a: seq<Value>, b: seq<Value>)
    ensures Kept(a + b) == Kept(a) + Kept(b)
    decreases |a|
  {
    if a == [] {
      assert a + b == b;
    } else {
      assert (a + b)[1..] == a[1..] + b;
      KeptAppend(a[1..], b);
      assert Kept(a + b) == (if Truthy(a[0]) then [a[0]] else []) + Kept(a[1..] + b);
    }
  }

  /** The suffix is always kept, after the kept address parts. */
  lemma KeptWithSuffix(parts: seq<Value>)
    ensures Kept(parts + [VStr(Suffix)]) == Kept(parts) + [VStr(Suffix)]
  {
    KeptAppend(parts, [VStr(Suffix)]);
    KeptOne(VStr(Suffix));
  }

  /** A single value is kept exactly when it is truthy. */
  lemma KeptOne(v: Value)
    ensures Kept([v]) == (if Truthy(v) then [v] else [])
  {
    assert [v][1..] == [];
  }

  lemma {:induction false} JoinEndsWithLast(sep: string, parts: seq<string>)
    requires parts != []
    ensures EndsWith(Join(sep, parts), parts[|parts| - 1])
    decreases |parts|
  {
    if |parts| > 1 {
      JoinEndsWithLast(sep, parts[1..]);
      var tail := Join(sep, parts[1..]);
      var s := parts[0] + sep + tail;
      assert s[|s| - |tail|..] == tail;
    }
  }

  /** Stripping whitespace keeps a suffix that starts and ends with non-space characters. */
  lemma {:induction false} StripKeepsSuffix(s: string, t: string)
    requires EndsWith(s, t) && t != [] && !IsSpace(t[0]) && !IsSpace(t[|t| - 1])
    ensures EndsWith(Strip(s), t)
  {
    assert RStrip(s) == s;
    LStripKeepsSuffix(s, t);
  }

  lemma {:induction false} LStripKeepsSuffix(s: string, t: string)
    requires EndsWith(s, t) && t != [] && !IsSpace(t[0])
    ensures EndsWith(LStrip(s), t)
    decreases |s|
  {
    if s != [] && IsSpace(s[0]) {
      assert s[|s| - |t|..][0] == t[0];
      assert |s| - |t| != 0;
      assert s[1..][|s| - 1 - |t|..] == s[|s| - |t|..];
      LStripKeepsSuffix(s[1..], t);
    }
  }

  lemma {:induction false} KeptNone(parts: seq<Value>)
    requires forall v :: v in parts ==> !Truthy(v)
    ensures Kept(parts) == []
    decreases |parts|
  {
    if parts != [] {
      assert parts[0] in parts;
      KeptNone(parts[1..]);
    }
  }

  lemma {:induction false} KeptAll(parts: seq<Value>)
    requires forall v :: v in parts ==> Truthy(v)
    ensures Kept(parts) == parts
    decreases |parts|
  {
    if parts != [] {
      assert parts[0] in parts;
      KeptAll(parts[1..]);
    }
  }

  lemma StripUnchanged(s: string)
    requires s != [] && !IsSpace(s[0]) && !IsSpace(s[|s| - 1])
    ensures Strip(s) == s
  {
    assert RStrip(s) == s;
  }

  /**
   * For every account whose truthy address fields are strings, the query is
   * the texts of those fields in order, then "Restaurant", joined by single
   * spaces and stripped.
   */
  lemma QueryOfTextFields(account: Dict)
    requires forall v :: v in AddressParts(account) && Truthy(v) ==> v.VStr?
    ensures var kept := Kept(AddressParts(account));
            (forall k :: 0 <= k < |kept| ==> kept[k].VStr?) &&
            ConstructSearchQuery(account) == Ok(Strip(Join(" ", Texts(kept) + [Suffix])))
  {
    var parts := AddressParts(account);
    var kept := Kept(parts);
    var all := kept + [VStr(Suffix)];
    KeptWithSuffix(parts);
    forall k | 0 <= k < |kept| ensures kept[k].VStr? {
      assert kept[k] in kept;
    }
    assert forall k :: 0 <= k < |all| ==> all[k].VStr?;
    assert Texts(all) == Texts(kept) + [Suffix];
    assert JoinValues(" ", all) == Ok(Join(" ", Texts(kept) + [Suffix]));
  }

  lemma SuffixEdges()
    ensures Suffix != [] && !IsSpace(Suffix[0]) && !IsSpace(Suffix[|Suffix| - 1])
  {
    assert Suffix[0] == 'R' && Suffix[9] == 't';
  }

  /** An account without any address field searches for "Restaurant" alone. */
  lemma BareAccountQuery(account: Dict)
    requires forall v :: v in AddressParts(account) ==> !Truthy(v)
    ensures ConstructSearchQuery(account) == Ok(Suffix)
  {
    QueryOfTextFields(account);
    KeptNone(AddressParts(account));
    assert Texts([]) + [Suffix] == [Suffix];
    assert Join(" ", [Suffix]) == Suffix;
    SuffixEdges();
    StripUnchanged(Suffix);
  }

  lemma JoinFive(a: string, b: string, c: string, d: string, e: string)
    ensures Join(" ", [a, b, c, d, e]) == a + " " + b + " " + c + " " + d + " " + e
  {
    var ts := [a, b, c, d, e];
    assert ts[1..] == [b, c, d, e];
    assert ts[1..][1..] == [c, d, e];
    assert ts[1..][1..][1..] == [d, e];
    assert ts[1..][1..][1..][1..] == [e];
    assert Join(" ", [e]) == e;
    assert Join(" ", [d, e]) == d + " " + e;
    assert Join(" ", [c, d, e]) == c + " " + (d + " " + e);
    assert Join(" ", [b, c, d, e]) == b + " " + (c + " " + (d + " " + e));
    assert Join(" ", ts) == a + " " + (b + " " + (c + " " + (d + " " + e)));
  }

  /** With every field a non-empty string, the query is the four fields and "Restaurant" separated by single spaces, then stripped. */
  lemma FullAccountQuery(account: Dict, name: string, street: string, city: string, country: string)
    requires Get(account, "Name") == VStr(name) && name != ""
    requires Get(account, "BillingStreet") == VStr(street) && street != ""
    requires Get(account, "BillingCity") == VStr(city) && city != ""
    requires Get(account, "BillingCountry") == VStr(country) && country != ""
    ensures ConstructSearchQuery(account) == Ok(Strip(name + " " + street + " " + city + " " + country + " " + Suffix))
  {
    FullAccountTexts(account, name, street, city, country);
    QueryOfTextFields(account);
    JoinFourThenSuffix(name, street, city, country);
  }

  lemma JoinFourThenSuffix(a: string, b: string, c: string, d: string)
    ensures Join(" ", [a, b, c, d] + [Suffix]) == a + " " + b + " " + c + " " + d + " " + Suffix
  {
    assert [a, b, c, d] + [Suffix] == [a, b, c, d, Suffix];
    JoinFive(a, b, c, d, Suffix);
  }

  /** The kept fields of an account with four non-empty string fields are those four strings. */
  lemma FullAccountTexts(account: Dict, name: string, street: string, city: string, country: string)
    requires Get(account, "Name") == VStr(name) && name != ""
    requires Get(account, "BillingStreet") == VStr(street) && street != ""
    requires Get(account, "BillingCity") == VStr(city) && city != ""
    requires Get(account, "BillingCountry") == VStr(country) && country != ""
    ensures forall v :: v in AddressParts(account) && Truthy(v) ==> v.VStr?
    ensures var kept := Kept(AddressParts(account));
            (forall k :: 0 <= k < |kept| ==> kept[k].VStr?) && Texts(kept) == [name, street, city, country]
  {
    var parts := [VStr(name), VStr(street), VStr(city), VStr(country)];
    TextsOfStrings(parts, [name, street, city, country]);
    assert AddressParts(account) == parts;
    KeptAll(parts);
  }

  /** The texts of values that are the strings `ts` are `ts`. */
  lemma TextsOfStrings(items: seq<Value>, ts: seq<string>)
    requires |items| == |ts| && forall k :: 0 <= k < |items| ==> items[k] == VStr(ts[k])
    ensures forall k :: 0 <= k < |items| ==> items[k].VStr?
    ensures Texts(items) == ts
  {
  }
}
