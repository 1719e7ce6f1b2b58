/**
 * The price normaliser `_clean_price`, which maps a raw price (absent, a
 * number, or free text such as "€20–30" or "$$") to one of the four
 * picklist tiers "$" .. "$$$$", or to no opinion (`None`).
 *
 * The routine exists in three copies. The two enrichment-service copies are
 * identical and use the separator class `[–-]` (en-dash, hyphen). The copy in
 * the sync service has that class written with its bytes mis-decoded: the
 * class holds U+00E2, U+20AC ("€"), U+201C and the hyphen, but not the
 * en-dash. All three are one definition, `CleanPriceWith`, applied to the
 * copy's separator class.
 */
module Price {
  import opened Py

  /** `[–-]` in both enrichment services. */
  const EnDashSeparators: set<char> := {'\U{2013}', '-'}

  /** `[â€“-]` in the sync service, character by character: U+00E2, U+20AC, U+201C, hyphen. */
  const SyncSeparators: set<char> := {'\U{E2}', '\U{20AC}', '\U{201C}', '-'}

  /** `\d`, for ASCII digits. */
  predicate IsDigit(c: char) {
    '0' <= c <= '9'
  }

  predicate NoDigits(s: string) {
    forall k :: 0 <= k < |s| ==> !IsDigit(s[k])
  }

  /** End of the longest run of digits starting at `i`. */
  function DigitRunEnd(s: string, i: nat): (j: nat)
    requires i <= |s|
    ensures i <= j <= |s|
    ensures forall k :: i <= k < j ==> IsDigit(s[k])
    ensures j == |s| || !IsDigit(s[j])
    decreases |s| - i
  {
    if i < |s| && IsDigit(s[i]) then DigitRunEnd(s, i + 1) else i
  }

  /** End of the longest run of `\s` characters starting at `i`. */
  function SpaceRunEnd(s: string, i: nat): (j: nat)
    requires i <= |s|
    ensures i <= j <= |s|
    ensures forall k :: i <= k < j ==> IsSpace(s[k])
    ensures j == |s| || !IsSpace(s[j])
    decreases |s| - i
  {
    if i < |s| && IsSpace(s[i]) then SpaceRunEnd(s, i + 1) else i
  }

  /** `int(ds)` (and so `float(ds)`) for a string of ASCII digits. */
  function DecimalValue(ds: string): nat
    decreases |ds|
  {
    if ds == [] then 0
    else DecimalValue(ds[..|ds| - 1]) * 10 + (if IsDigit(ds[|ds| - 1]) then ds[|ds| - 1] as int - '0' as int else 0)
  }

  /**
   * The groups of `(\d+)\s*[seps]\s*(\d+)` matched at position `p`, or None.
   * No separator is a digit or a space, so the backtracking matcher can only
   * succeed with every `+` and `*` taking its longest run: each group is the
   * whole digit run at its position.
   */
  function MatchRangeAt(s: string, p: nat, seps: set<char>): (m: Option<(nat, nat)>)
    requires p <= |s|
    ensures m.Some? ==> p < |s| && IsDigit(s[p])
  {
    if p < |s| && IsDigit(s[p]) then
      var q := DigitRunEnd(s, p);
      var r := SpaceRunEnd(s, q);
      if r < |s| && s[r] in seps then
        var t := SpaceRunEnd(s, r + 1);
        if t < |s| && IsDigit(s[t]) then
          Some((DecimalValue(s[p..q]), DecimalValue(s[t..DigitRunEnd(s, t)])))
        else None
      else None
    else None
  }

  /** A successful `re.search` of the range pattern: where it starts and its two numbers. */
  datatype RangeMatch = RangeMatch(start: nat, low: nat, high: nat)

  /** `re.search(r'(\d+)\s*[seps]\s*(\d+)', s[from..])`: the leftmost position at which the pattern matches. */
  function SearchRange(s: string, from: nat, seps: set<char>): (m: Option<RangeMatch>)
    requires from <= |s|
    ensures m.Some? ==> from <= m.value.start < |s| && MatchRangeAt(s, m.value.start, seps) == Some((m.value.low, m.value.high))
    ensures m.Some? ==> forall p :: from <= p < m.value.start ==> MatchRangeAt(s, p, seps).None?
    ensures m.None? ==> forall p :: from <= p <= |s| ==> MatchRangeAt(s, p, seps).None?
    decreases |s| - from
  {
    if from == |s| then None
    else
      match MatchRangeAt(s, from, seps)
      case Some((low, high)) => Some(RangeMatch(from, low, high))
      case None => SearchRange(s, from + 1, seps)
  }

  /** `re.search(r'\d+', s[from..])`: the value of the first run of digits. */
  function SearchNumber(s: string, from: nat): (n: Option<nat>)
    requires from <= |s|
    ensures n.None? <==> forall k :: from <= k < |s| ==> !IsDigit(s[k])
    decreases |s| - from
  {
    if from == |s| then None
    else if IsDigit(s[from]) then Some(DecimalValue(s[from..DigitRunEnd(s, from)]))
    else SearchNumber(s, from + 1)
  }

  /** The magnitude a string yields: the mean of the first range, else the first number, else none. */
  function TextMagnitude(s: string, seps: set<char>): (v: Option<real>)
    ensures v.None? <==> NoDigits(s)
  {
    match SearchRange(s, 0, seps)
    case Some(m) => Some((m.low + m.high) as real / 2.0)
    case None =>
      match SearchNumber(s, 0)
      case Some(n) => Some(n as real)
      case None => None
  }

  /** The picklist value of tier `k`: `"$" * k`. */
  function Tier(k: nat): (t: string)
    ensures |t| == k
  {
    Repeat('$', k)
  }

  /** The tier a magnitude maps to: 1..4 is read as a level, anything else as an amount. */
  function TierFor(v: real): (k: nat)
    ensures 1 <= k <= 4
  {
    if 1.0 <= v <= 4.0 then v.Floor
    else if v < 20.0 then 1
    else if 20.0 <= v < 30.0 then 2
    else if 30.0 <= v < 50.0 then 3
    else 4
  }

  /** Read as an amount, a magnitude above the levels never gets a lower tier than a smaller one. */
  lemma TierForGrowsWithAmount(v: real, w: real)
    requires 4.0 < v <= w
    ensures TierFor(v) <= TierFor(w)
  {
  }

  /** Where levels meet amounts the tier drops: 4 is level "$$$$", 4.5 is an amount under 20, "$". */
  lemma TierForSeam()
    ensures TierFor(4.0) == 4 && TierFor(4.5) == 1
  {
  }

  /** `_clean_price` with the separator class of one copy. */
  function CleanPriceWith(seps: set<char>, price: Value): (r: Option<string>)
    ensures r.Some? ==> 1 <= |r.value| <= 4 && r.value == Tier(|r.value|)
    ensures !Truthy(price) ==> r == None
    ensures Truthy(price) && Numeric(price).Some? ==> r == Some(Tier(TierFor(Numeric(price).value)))
    ensures Truthy(price) && price.VStr? && NoDigits(price.s) ==>
              r == (var n := CountChar(price.s, '$'); if 1 <= n <= 4 then Some(Tier(n)) else None)
    ensures price.VList? || price.VDict? ==> r == None
  {
    if !Truthy(price) then None
    else if Numeric(price).Some? then Some(Tier(TierFor(Numeric(price).value)))
    else if price.VStr? then
      match TextMagnitude(price.s, seps)
      case Some(v) => Some(Tier(TierFor(v)))
      case None =>
        var n := CountChar(price.s, '$');
        if 1 <= n <= 4 then Some(Tier(n)) else None
    else None
  }

  /** The Python value `_clean_price` returns: a picklist string, or None. */
  function PriceValue(p: Option<string>): Value {
    if p.Some? then VStr(p.value) else VNone
  }

  /** A value of the Salesforce price picklist, or None. */
  predicate IsPicklistPrice(v: Value) {
    v == VNone || (v.VStr? && 1 <= |v.s| <= 4 && v.s == Tier(|v.s|))
  }

  /** `_clean_price` of both enrichment services. */
  function CleanPrice(price: Value): Option<string> {
    CleanPriceWith(EnDashSeparators, price)
  }

  /** `_clean_price` of the sync service, with its separator class as written. */
  function SyncCleanPrice(price: Value): Option<string> {
    CleanPriceWith(SyncSeparators, price)
  }

  /** A string with digits: the tier comes from the leftmost range's mean, else from the first number. */
  lemma TextPriceUsesLeftmostRange(seps: set<char>, s: string)
    requires !NoDigits(s)
    ensures SearchRange(s, 0, seps).Some? ==>
              var m := SearchRange(s, 0, seps).value;
              CleanPriceWith(seps, VStr(s)) == Some(Tier(TierFor((m.low + m.high) as real / 2.0)))
    ensures SearchRange(s, 0, seps).None? ==>
              SearchNumber(s, 0).Some? && CleanPriceWith(seps, VStr(s)) == Some(Tier(TierFor(SearchNumber(s, 0).value as real)))
  {
  }

  /** A string whose text magnitude is known cleans to that magnitude's tier. */
  lemma CleanTextByMagnitude(seps: set<char>, s: string, v: real)
    requires TextMagnitude(s, seps) == Some(v)
    ensures CleanPriceWith(seps, VStr(s)) == Some(Tier(TierFor(v)))
  {
    assert s != "";
  }

  lemma TierLiterals()
    ensures Tier(1) == "$" && Tier(2) == "$$" && Tier(3) == "$$$"
  {
  }

  /** Every tier string is a fixed point: it has no digits and exactly k dollar signs. */
  lemma {:induction false} TierIsFixedPoint(seps: set<char>, k: nat)
    requires 1 <= k <= 4
    ensures CleanPriceWith(seps, VStr(Tier(k))) == Some(Tier(k))
  {
    var t := Tier(k);
    assert NoDigits(t);
    CountCharRepeat('$', k);
  }

  /** Normalising an already normalised price changes nothing. */
  lemma CleanPriceIdempotent(seps: set<char>, price: Value)
    ensures CleanPriceWith(seps, price).Some? ==>
              CleanPriceWith(seps, VStr(CleanPriceWith(seps, price).value)) == CleanPriceWith(seps, price)
  {
    var r := CleanPriceWith(seps, price);
    if r.Some? {
      TierIsFixedPoint(seps, |r.value|);
    }
  }

  lemma ZeroTextMagnitude()
    ensures TextMagnitude("0", EnDashSeparators) == Some(0.0)
  {
    var s := "0";
    assert DigitRunEnd(s, 1) == 1 && DigitRunEnd(s, 0) == 1 && SpaceRunEnd(s, 1) == 1;
    assert MatchRangeAt(s, 0, EnDashSeparators) == None;
    assert SearchRange(s, 1, EnDashSeparators) == None;
    assert SearchRange(s, 0, EnDashSeparators) == None;
    assert s[0..1] == "0" && DecimalValue("0") == 0;
    assert SearchNumber(s, 0) == Some(0);
  }

  /** The string "0" is truthy and yields "$"; the integer 0 is falsy and yields None. */
  lemma ZeroStringVersusZeroInt()
    ensures CleanPrice(VStr("0")) == Some("$")
    ensures CleanPrice(VInt(0)) == None
  {
    ZeroTextMagnitude();
    CleanTextByMagnitude(EnDashSeparators, "0", 0.0);
    TierLiterals();
  }

  lemma LevelThreeTextMagnitudes()
    ensures TextMagnitude("2-4", EnDashSeparators) == Some(3.0)
    ensures TextMagnitude("3", EnDashSeparators) == Some(3.0)
  {
    var s := "2-4";
    assert DigitRunEnd(s, 1) == 1 && DigitRunEnd(s, 0) == 1;
    assert SpaceRunEnd(s, 1) == 1 && SpaceRunEnd(s, 2) == 2;
    assert DigitRunEnd(s, 3) == 3 && DigitRunEnd(s, 2) == 3;
    assert s[0..1] == "2" && s[2..3] == "4";
    assert DecimalValue("2") == 2 && DecimalValue("4") == 4;
    assert MatchRangeAt(s, 0, EnDashSeparators) == Some((2, 4));
    assert SearchRange(s, 0, EnDashSeparators) == Some(RangeMatch(0, 2, 4));
    var t := "3";
    assert DigitRunEnd(t, 1) == 1 && DigitRunEnd(t, 0) == 1 && SpaceRunEnd(t, 1) == 1;
    assert MatchRangeAt(t, 0, EnDashSeparators) == None;
    assert SearchRange(t, 1, EnDashSeparators) == None;
    assert SearchRange(t, 0, EnDashSeparators) == None;
    assert t[0..1] == "3" && DecimalValue("3") == 3;
    assert SearchNumber(t, 0) == Some(3);
  }

  /** A range whose mean falls in 1..4 is read as a level: "2-4" gives the same tier as "3". */
  lemma SmallRangeReadsAsLevel()
    ensures CleanPrice(VStr("2-4")) == CleanPrice(VStr("3")) == Some("$$$")
  {
    LevelThreeTextMagnitudes();
    CleanTextByMagnitude(EnDashSeparators, "2-4", 3.0);
    CleanTextByMagnitude(EnDashSeparators, "3", 3.0);
    assert TierFor(3.0) == 3;
    TierLiterals();
  }

  /** Characters on which the two separator classes disagree. */
  predicate AvoidsSeparatorVariants(s: string) {
    forall k :: 0 <= k < |s| ==> s[k] !in {'\U{2013}', '\U{E2}', '\U{20AC}', '\U{201C}'}
  }

  lemma {:induction false} SearchRangeAgrees(s: string, from: nat)
    requires from <= |s|
    requires AvoidsSeparatorVariants(s)
    ensures SearchRange(s, from, EnDashSeparators) == SearchRange(s, from, SyncSeparators)
    decreases |s| - from
  {
    if from < |s| {
      assert MatchRangeAt(s, from, EnDashSeparators) == MatchRangeAt(s, from, SyncSeparators);
      SearchRangeAgrees(s, from + 1);
    }
  }

  /** The sync copy agrees with the enrichment copies on every price that contains none of "–", "â", "€", "“". */
  lemma CopiesAgreeWithoutSeparatorVariants(price: Value)
    requires price.VStr? ==> AvoidsSeparatorVariants(price.s)
    ensures SyncCleanPrice(price) == CleanPrice(price)
  {
    if price.VStr? {
      SearchRangeAgrees(price.s, 0);
      var range := SearchRange(price.s, 0, EnDashSeparators);
      MagnitudeFromRange(price.s, EnDashSeparators, range);
      MagnitudeFromRange(price.s, SyncSeparators, range);
    }
    SameMagnitudeSameTier(EnDashSeparators, SyncSeparators, price);
  }

  /** The magnitude of a string depends on the separators only through the leftmost range they find. */
  lemma MagnitudeFromRange(s: string, seps: set<char>, range: Option<RangeMatch>)
    requires SearchRange(s, 0, seps) == range
    ensures range.Some? ==> TextMagnitude(s, seps) == Some((range.value.low + range.value.high) as real / 2.0)
    ensures range.None? ==> TextMagnitude(s, seps) == if SearchNumber(s, 0).Some? then Some(SearchNumber(s, 0).value as real) else None
  {
  }

  /** Two separator classes give the same tier wherever they read the same magnitude from a string. */
  lemma SameMagnitudeSameTier(seps: set<char>, seps': set<char>, price: Value)
    requires price.VStr? ==> TextMagnitude(price.s, seps) == TextMagnitude(price.s, seps')
    ensures CleanPriceWith(seps, price) == CleanPriceWith(seps', price)
  {
  }


  /** The digit runs of "€10–40": "10" at 1..3 and "40" at 4..6. */
  lemma EnDashRangeRuns()
    ensures DigitRunEnd("€10–40", 3) == 3 && DigitRunEnd("€10–40", 2) == 3 && DigitRunEnd("€10–40", 1) == 3
    ensures DigitRunEnd("€10–40", 6) == 6 && DigitRunEnd("€10–40", 5) == 6 && DigitRunEnd("€10–40", 4) == 6
    ensures SpaceRunEnd("€10–40", 3) == 3 && SpaceRunEnd("€10–40", 4) == 4 && SpaceRunEnd("€10–40", 6) == 6
    ensures DecimalValue("€10–40"[1..3]) == 10 && DecimalValue("€10–40"[4..6]) == 40
  {
    var s := "€10–40";
    assert s[1..3] == "10" && s[4..6] == "40";
    assert DecimalValue("1") == 1 && DecimalValue("4") == 4;
  }

  lemma EnDashRangeMagnitudeEnrichment()
    ensures TextMagnitude("€10–40", EnDashSeparators) == Some(25.0)
  {
    var s := "€10–40";
    EnDashRangeRuns();
    assert MatchRangeAt(s, 1, EnDashSeparators) == Some((10, 40));
    assert SearchRange(s, 1, EnDashSeparators) == Some(RangeMatch(1, 10, 40));
    assert SearchRange(s, 0, EnDashSeparators) == Some(RangeMatch(1, 10, 40));
  }

  lemma EnDashRangeMagnitudeSync()
    ensures TextMagnitude("€10–40", SyncSeparators) == Some(10.0)
  {
    var s := "€10–40";
    EnDashRangeRuns();
    assert SearchRange(s, 6, SyncSeparators) == None;
    assert MatchRangeAt(s, 5, SyncSeparators) == None;
    assert SearchRange(s, 5, SyncSeparators) == None;
    assert MatchRangeAt(s, 4, SyncSeparators) == None;
    assert SearchRange(s, 4, SyncSeparators) == None;
    assert SearchRange(s, 3, SyncSeparators) == None;
    assert MatchRangeAt(s, 2, SyncSeparators) == None;
    assert SearchRange(s, 2, SyncSeparators) == None;
    assert MatchRangeAt(s, 1, SyncSeparators) == None;
    assert SearchRange(s, 1, SyncSeparators) == None;
    assert SearchRange(s, 0, SyncSeparators) == None;
    assert SearchNumber(s, 1) == Some(10);
    assert SearchNumber(s, 0) == Some(10);
  }

  /** An en-dash range is not a range for the sync copy: "€10–40" is "$$" (mean 25) elsewhere but "$" (first number 10) in sync. */
  lemma SyncCopyMissesEnDashRange()
    ensures CleanPrice(VStr("€10–40")) == Some("$$")
    ensures SyncCleanPrice(VStr("€10–40")) == Some("$")
  {
    EnDashRangeMagnitudeEnrichment();
    EnDashRangeMagnitudeSync();
    CleanTextByMagnitude(EnDashSeparators, "€10–40", 25.0);
    CleanTextByMagnitude(SyncSeparators, "€10–40", 10.0);
    assert TierFor(25.0) == 2 && TierFor(10.0) == 1;
    TierLiterals();
  }

  lemma EuroRangeMagnitudes()
    ensures TextMagnitude("10€40", SyncSeparators) == Some(25.0)
    ensures TextMagnitude("10€40", EnDashSeparators) == Some(10.0)
  {
    var s := "10€40";
    assert DigitRunEnd(s, 2) == 2 && DigitRunEnd(s, 1) == 2 && DigitRunEnd(s, 0) == 2;
    assert DigitRunEnd(s, 5) == 5 && DigitRunEnd(s, 4) == 5 && DigitRunEnd(s, 3) == 5;
    assert SpaceRunEnd(s, 2) == 2 && SpaceRunEnd(s, 3) == 3 && SpaceRunEnd(s, 5) == 5;
    assert s[0..2] == "10" && s[3..5] == "40";
    assert DecimalValue("1") == 1 && DecimalValue("10") == 10;
    assert DecimalValue("4") == 4 && DecimalValue("40") == 40;
    // the sync copy: "€" is in its class
    assert MatchRangeAt(s, 0, SyncSeparators) == Some((10, 40));
    assert SearchRange(s, 0, SyncSeparators) == Some(RangeMatch(0, 10, 40));
    // the enrichment copies: no position matches, so the first number is used
    assert SearchRange(s, 5, EnDashSeparators) == None;
    assert MatchRangeAt(s, 4, EnDashSeparators) == None;
    assert SearchRange(s, 4, EnDashSeparators) == None;
    assert MatchRangeAt(s, 3, EnDashSeparators) == None;
    assert SearchRange(s, 3, EnDashSeparators) == None;
    assert SearchRange(s, 2, EnDashSeparators) == None;
    assert MatchRangeAt(s, 1, EnDashSeparators) == None;
    assert SearchRange(s, 1, EnDashSeparators) == None;
    assert MatchRangeAt(s, 0, EnDashSeparators) == None;
    assert SearchRange(s, 0, EnDashSeparators) == None;
    assert SearchNumber(s, 0) == Some(10);
  }

  /** "€" separates a range for the sync copy only: "10€40" is "$$" (mean 25) in sync but "$" elsewhere. */
  lemma SyncCopyTreatsEuroAsSeparator()
    ensures SyncCleanPrice(VStr("10€40")) == Some("$$")
    ensures CleanPrice(VStr("10€40")) == Some("$")
  {
    EuroRangeMagnitudes();
    CleanTextByMagnitude(SyncSeparators, "10€40", 25.0);
    CleanTextByMagnitude(EnDashSeparators, "10€40", 10.0);
    assert TierFor(25.0) == 2 && TierFor(10.0) == 1;
    TierLiterals();
  }
}
