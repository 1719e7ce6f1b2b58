/**
 * The slice of Python's value model that the pipeline relies on: dynamically
 * typed values, truthiness, `dict.get`, `str()`, `==`, `str.lower`,
 * `str.strip`, `str.join`, `str.count` and `sum(d.values())`.
 */
module Py {

  datatype Option<+T> = None | Some(value: T)

  /** A computation that either returns a value or raises an exception whose `str(e)` is `message`. */
  datatype Result<+T> = Ok(value: T) | Raised(message: string)

  /** A Python value as it travels through the pipeline (JSON-shaped data). Floats are exact rationals. */
  datatype Value =
    | VNone
    | VBool(b: bool)
    | VInt(i: int)
    | VFloat(r: real)
    | VStr(s: string)
    | VList(items: seq<Value>)
    | VDict(entries: map<string, Value>)

  /** A Python `dict` with string keys. Insertion order is not modelled. */
  type Dict = map<string, Value>

  /** `bool(v)` */
  predicate Truthy(v: Value) {
    match v
    case VNone => false
    case VBool(b) => b
    case VInt(i) => i != 0
    case VFloat(r) => r != 0.0
    case VStr(s) => s != ""
    case VList(items) => items != []
    case VDict(entries) => entries != map[]
  }

  /** `type(v).__name__` */
  function TypeName(v: Value): string {
    match v
    case VNone => "NoneType"
    case VBool(_) => "bool"
    case VInt(_) => "int"
    case VFloat(_) => "float"
    case VStr(_) => "str"
    case VList(_) => "list"
    case VDict(_) => "dict"
  }

  /** `d.get(k)` */
  function Get(d: Dict, k: string): (v: Value)
    ensures k !in d ==> v == VNone
  {
    if k in d then d[k] else VNone
  }

  /** `d.get(k, default)` */
  function GetOr(d: Dict, k: string, default: Value): (v: Value)
    ensures k !in d ==> v == default
  {
    if k in d then d[k] else default
  }

  /** `v or ""` */
  function OrEmpty(v: Value): (r: Value)
    ensures Truthy(v) ==> r == v
    ensures !Truthy(v) ==> r == VStr("")
  {
    if Truthy(v) then v else VStr("")
  }

  /** The numeric view of `bool`, `int` and `float`, under which Python compares them with each other. */
  function Numeric(v: Value): Option<real> {
    match v
    case VBool(b) => Some(if b then 1.0 else 0.0)
    case VInt(i) => Some(i as real)
    case VFloat(r) => Some(r)
    case _ => None
  }

  /** Python `a == b`: numbers compare by value across `bool`, `int` and `float`; everything else structurally. */
  predicate PyEq(a: Value, b: Value) {
    if Numeric(a).Some? && Numeric(b).Some? then Numeric(a).value == Numeric(b).value else a == b
  }

  function DigitChar(d: nat): (c: char)
    requires d < 10
    ensures '0' <= c <= '9'
  {
    "0123456789"[d]
  }

  /** `str(n)` for a non-negative integer */
  function NatToString(n: nat): (s: string)
    ensures |s| > 0
    ensures forall k :: 0 <= k < |s| ==> '0' <= s[k] <= '9'
    decreases n
  {
    if n < 10 then [DigitChar(n)] else NatToString(n / 10) + [DigitChar(n % 10)]
  }

  /** `str(i)` for an integer */
  function IntToString(i: int): (s: string)
    ensures |s| > 0
  {
    if i < 0 then "-" + NatToString(-i) else NatToString(i)
  }

  /**
   * `str(v)`. None, booleans, integers and strings are rendered as Python
   * renders them; the rendering of floats, lists and dicts is supplied by the
   * caller as `render`.
   */
  function Str(render: Value -> string, v: Value): string {
    match v
    case VNone => "None"
    case VBool(b) => if b then "True" else "False"
    case VInt(i) => IntToString(i)
    case VStr(s) => s
    case _ => render(v)
  }

  /** The characters for which `str.isspace()` holds; also what `\s` matches in a `str` pattern. */
  predicate IsSpace(c: char) {
    ('\t' <= c <= '\r') || ('\U{1C}' <= c <= '\U{1F}') || c == ' ' || c == '\U{85}' || c == '\U{A0}'
    || c == '\U{1680}' || ('\U{2000}' <= c <= '\U{200A}') || c == '\U{2028}' || c == '\U{2029}'
    || c == '\U{202F}' || c == '\U{205F}' || c == '\U{3000}'
  }

  /** `s.lstrip()` */
  function LStrip(s: string): (r: string)
    ensures |r| <= |s| && r == s[|s| - |r|..]
    ensures r == "" || !IsSpace(r[0])
    decreases |s|
  {
    if s != [] && IsSpace(s[0]) then LStrip(s[1..]) else s
  }

  /** `s.rstrip()` */
  function RStrip(s: string): (r: string)
    ensures |r| <= |s| && r == s[..|r|]
    ensures r == "" || !IsSpace(r[|r| - 1])
    decreases |s|
  {
    if s != [] && IsSpace(s[|s| - 1]) then RStrip(s[..|s| - 1]) else s
  }

  /** `s.strip()` */
  function Strip(s: string): string {
    LStrip(RStrip(s))
  }

  /** `str.lower()` on ASCII letters; other characters are left as they are. */
  function Lower(s: string): (r: string)
    ensures |r| == |s|
  {
    seq(|s|, k requires 0 <= k < |s| => if 'A' <= s[k] <= 'Z' then (s[k] as int + 32) as char else s[k])
  }

  /** `sub in s` for strings */
  predicate HasSubstring(s: string, sub: string)
    decreases |s|
  {
    |sub| <= |s| && (s[..|sub|] == sub || HasSubstring(s[1..], sub))
  }

  /** `sep.join(parts)` over strings */
  function Join(sep: string, parts: seq<string>): string
    decreases |parts|
  {
    if parts == [] then ""
    else if |parts| == 1 then parts[0]
    else parts[0] + sep + Join(sep, parts[1..])
  }

  /** Index of the first item that is not a `str`, if any. */
  function FirstNonStr(items: seq<Value>): (i: Option<nat>)
    ensures i.None? <==> forall k :: 0 <= k < |items| ==> items[k].VStr?
    ensures i.Some? ==> i.value < |items| && !items[i.value].VStr? && forall k :: 0 <= k < i.value ==> items[k].VStr?
    decreases |items|
  {
    if items == [] then None
    else if !items[0].VStr? then Some(0)
    else match FirstNonStr(items[1..]) case None => None case Some(j) => Some(j + 1)
  }

  /** The texts of a list of `str` values. */
  function Texts(items: seq<Value>): (ts: seq<string>)
    requires forall k :: 0 <= k < |items| ==> items[k].VStr?
    ensures |ts| == |items| && forall k :: 0 <= k < |items| ==> ts[k] == items[k].s
  {
    seq(|items|, k requires 0 <= k < |items| => items[k].s)
  }

  /** `sep.join(items)`: a `TypeError` names the first item that is not a `str`. */
  function JoinValues(sep: string, items: seq<Value>): (r: Result<string>)
    ensures r.Ok? <==> forall k :: 0 <= k < |items| ==> items[k].VStr?
    ensures r.Ok? ==> r.value == Join(sep, Texts(items))
    ensures r.Raised? ==>
              exists k :: 0 <= k < |items| && !items[k].VStr? && (forall j :: 0 <= j < k ==> items[j].VStr?) &&
                r.message == "sequence item " + NatToString(k) + ": expected str instance, " + TypeName(items[k]) + " found"
  {
    match FirstNonStr(items)
    case None => Ok(Join(sep, Texts(items)))
    case Some(k) => Raised("sequence item " + NatToString(k) + ": expected str instance, " + TypeName(items[k]) + " found")
  }

  /** The keys of a dict, each once, in some order. */
  method KeysOf<V>(m: map<string, V>) returns (ks: seq<string>)
    ensures forall k :: k in m <==> k in ks
    ensures |ks| == |m|
    ensures forall i, j :: 0 <= i < j < |ks| ==> ks[i] != ks[j]
  {
    ks := [];
    var rest := m.Keys;
    while rest != {}
      invariant rest !! set k | k in ks
      invariant forall k :: k in m <==> k in ks || k in rest
      invariant |ks| + |rest| == |m|
      invariant forall i, j :: 0 <= i < j < |ks| ==> ks[i] != ks[j]
      decreases |rest|
    {
      var k :| k in rest;
      ks := ks + [k];
      rest := rest - {k};
    }
  }

  /** `s * n` for a one-character string */
  function Repeat(c: char, n: nat): (s: string)
    ensures |s| == n
    ensures forall k :: 0 <= k < n ==> s[k] == c
  {
    seq(n, _ => c)
  }

  /** `s.count(c)` for a one-character string */
  function CountChar(s: string, c: char): (n: nat)
    ensures n <= |s|
    decreases |s|
  {
    if s == [] then 0 else (if s[0] == c then 1 else 0) + CountChar(s[1..], c)
  }

  lemma {:induction false} CountCharRepeat(c: char, n: nat)
    ensures CountChar(Repeat(c, n), c) == n
    decreases n
  {
    if n > 0 {
      assert Repeat(c, n)[1..] == Repeat(c, n - 1);
      CountCharRepeat(c, n - 1);
    }
  }

  /** `sum(m.values())` for a map whose values are counts. */
  ghost function SumValues<K>(m: map<K, nat>): nat
    decreases |m|
  {
    if m == map[] then 0
    else
      var k :| k in m;
      m[k] + SumValues(m - {k})
  }

  /** Summing does not depend on the order in which the keys are visited. */
  lemma {:induction false} SumValuesRemove<K>(m: map<K, nat>, k: K)
    requires k in m
    ensures SumValues(m) == m[k] + SumValues(m - {k})
    decreases |m|
  {
    var j :| j in m && SumValues(m) == m[j] + SumValues(m - {j});
    if j != k {
      assert |m - {j}| == |m| - 1;
      assert |m - {k}| == |m| - 1;
      SumValuesRemove(m - {j}, k);
      SumValuesRemove(m - {k}, j);
      assert (m - {j}) - {k} == (m - {k}) - {j};
    }
  }

  /** Raising one count by one raises the sum by one. */
  lemma SumValuesBump<K>(m: map<K, nat>, k: K)
    ensures SumValues(m[k := (if k in m then m[k] else 0) + 1]) == SumValues(m) + 1
  {
    var m' := m[k := (if k in m then m[k] else 0) + 1];
    SumValuesRemove(m', k);
    assert m' - {k} == m - {k};
    if k in m {
      SumValuesRemove(m, k);
    } else {
      assert m - {k} == m;
    }
  }
}
