/**
 * Version information: the semantic version value with its defaulted
 * three-way comparison, the `sscanf("%d.%d.%d")` parser `to_version`,
 * the release stages and the `version` record with its defaults.
 */
module Version {
  import opened Wrappers

  const U32_LIMIT: int := 0x1_0000_0000

  /** An unsigned 32-bit field (`ui32`). */
  type U32 = x: int | 0 <= x < U32_LIMIT

  datatype SemanticVersion = SemanticVersion(major: U32, minor: U32, patch: U32)

  // ---------------------------------------------------------------------------
  // Ordering: `auto operator<=>(semantic_version const&) const = default`
  // compares the members in declaration order.

  datatype Ordering = Less | Equal | Greater

  function CompareField(x: U32, y: U32): Ordering {
    if x < y then Less else if x == y then Equal else Greater
  }

  /** The defaulted `<=>`: the first field that differs decides. */
  function Compare(a: SemanticVersion, b: SemanticVersion): (r: Ordering)
    ensures r == Equal <==> a == b
    ensures r == Less <==> a.major < b.major || (a.major == b.major && a.minor < b.minor)
                           || (a.major == b.major && a.minor == b.minor && a.patch < b.patch)
  {
    if a.major != b.major then CompareField(a.major, b.major)
    else if a.minor != b.minor then CompareField(a.minor, b.minor)
    else CompareField(a.patch, b.patch)
  }

  predicate Before(a: SemanticVersion, b: SemanticVersion) {
    Compare(a, b) == Less
  }

  /** An independent reading of the order: the three fields as digits of one base-2^32 number. */
  function Weight(v: SemanticVersion): (w: nat)
    ensures w < U32_LIMIT * U32_LIMIT * U32_LIMIT
  {
    WeightBound(v.major, v.minor, v.patch);
    (v.major * U32_LIMIT + v.minor) * U32_LIMIT + v.patch
  }

  lemma WeightBound(x: U32, y: U32, z: U32)
    ensures 0 <= (x * U32_LIMIT + y) * U32_LIMIT + z < U32_LIMIT * U32_LIMIT * U32_LIMIT
  {
    assert x * U32_LIMIT + y < (x + 1) * U32_LIMIT;
    assert x * U32_LIMIT + y <= U32_LIMIT * U32_LIMIT - 1;
    assert (x * U32_LIMIT + y) * U32_LIMIT <= (U32_LIMIT * U32_LIMIT - 1) * U32_LIMIT;
  }

  /** Two numbers that agree above a place value `p` and differ below it compare by the higher part. */
  lemma PlaceValue(hiA: int, loA: int, hiB: int, loB: int, p: int)
    requires p > 0 && 0 <= loA < p && 0 <= loB < p
    ensures hiA < hiB ==> hiA * p + loA < hiB * p + loB
  {
    if hiA < hiB {
      assert hiA * p + loA < (hiA + 1) * p;
      assert (hiA + 1) * p <= hiB * p;
    }
  }

  /** The defaulted comparison orders versions exactly as their base-2^32 weights. */
  lemma CompareMatchesWeight(a: SemanticVersion, b: SemanticVersion)
    ensures Compare(a, b) == Less <==> Weight(a) < Weight(b)
    ensures Compare(a, b) == Equal <==> Weight(a) == Weight(b)
    ensures Compare(a, b) == Greater <==> Weight(a) > Weight(b)
  {
    var ha, hb := a.major * U32_LIMIT + a.minor, b.major * U32_LIMIT + b.minor;
    PlaceValue(a.major, a.minor, b.major, b.minor, U32_LIMIT);
    PlaceValue(b.major, b.minor, a.major, a.minor, U32_LIMIT);
    PlaceValue(ha, a.patch, hb, b.patch, U32_LIMIT);
    PlaceValue(hb, b.patch, ha, a.patch, U32_LIMIT);
    if a.major == b.major && a.minor == b.minor {
      assert ha == hb;
    }
  }

  /** `==` from the defaulted `<=>` holds iff all three fields are equal. */
  lemma CompareEqualIff(a: SemanticVersion, b: SemanticVersion)
    ensures Compare(a, b) == Equal <==> a.major == b.major && a.minor == b.minor && a.patch == b.patch
  {
  }

  /** The order is a strict total order: irreflexive, asymmetric, transitive and connected. */
  lemma BeforeIsStrictTotalOrder(a: SemanticVersion, b: SemanticVersion, c: SemanticVersion)
    ensures !Before(a, a)
    ensures Before(a, b) ==> !Before(b, a)
    ensures Before(a, b) && Before(b, c) ==> Before(a, c)
    ensures a != b ==> Before(a, b) || Before(b, a)
  {
    CompareMatchesWeight(a, a);
    CompareMatchesWeight(a, b);
    CompareMatchesWeight(b, a);
    CompareMatchesWeight(b, c);
    CompareMatchesWeight(a, c);
  }

  // ---------------------------------------------------------------------------
  // Parsing: `sscanf(str, "%d.%d.%d", &major, &minor, &patch)` on a result
  // that starts as {0, 0, 0}.

  /** The characters `isspace` accepts in the C locale. */
  predicate IsSpace(c: char) {
    c == ' ' || 9 <= c as int <= 13
  }

  predicate IsDigit(c: char) {
    '0' <= c <= '9'
  }

  function LeadingSpaces(s: string): (n: nat)
    ensures n <= |s|
    ensures forall i :: 0 <= i < n ==> IsSpace(s[i])
    ensures n < |s| ==> !IsSpace(s[n])
  {
    if s != [] && IsSpace(s[0]) then 1 + LeadingSpaces(s[1..]) else 0
  }

  function DigitRun(s: string): (n: nat)
    ensures n <= |s|
    ensures forall i :: 0 <= i < n ==> IsDigit(s[i])
    ensures n < |s| ==> !IsDigit(s[n])
  {
    if s != [] && IsDigit(s[0]) then 1 + DigitRun(s[1..]) else 0
  }

  function DigitsValue(d: string): nat
    requires forall i :: 0 <= i < |d| ==> IsDigit(d[i])
  {
    if d == [] then 0
    else
      var last := d[|d| - 1];
      assert IsDigit(last);
      DigitsValue(d[..|d| - 1]) * 10 + (last as int - '0' as int)
  }

  /**
   * One `%d` conversion: skips white space, takes an optional sign and at
   * least one decimal digit. Yields the value and the number of characters
   * consumed, or None on a matching failure.
   */
  function ScanInt(s: string): (r: Option<(int, nat)>)
    ensures r.Some? ==> 0 < r.value.1 <= |s| && IsDigit(s[r.value.1 - 1])
    ensures r.Some? ==> r.value.1 == |s| || !IsDigit(s[r.value.1])
    ensures r.None? <==> var i := LeadingSpaces(s);
                         var j := if i < |s| && (s[i] == '-' || s[i] == '+') then i + 1 else i;
                         j == |s| || !IsDigit(s[j])
  {
    var i := LeadingSpaces(s);
    var negative := i < |s| && s[i] == '-';
    var j := if i < |s| && (s[i] == '-' || s[i] == '+') then i + 1 else i;
    var tail := s[j..];
    var k := DigitRun(tail);
    if k == 0 then None
    else
      var digits := tail[..k];
      assert forall i :: 0 <= i < |digits| ==> digits[i] == tail[i];
      var v: int := DigitsValue(digits);
      var value: int := if negative then -v else v;
      Some((value, j + k))
  }

  /**
   * The successive `%d` conversions of a format of `k` conversions separated
   * by `.`: scanning stops at the first conversion that fails or the first
   * literal `.` that does not match.
   */
  function ScanFields(s: string, k: nat): (r: seq<int>)
    ensures |r| <= k
    ensures k > 0 && ScanInt(s).None? ==> r == []
  {
    if k == 0 then []
    else match ScanInt(s)
      case None => []
      case Some((v, n)) =>
        if k > 1 && n < |s| && s[n] == '.' then [v] + ScanFields(s[n + 1..], k - 1) else [v]
  }

  /** Storing an `int` into a `ui32` field keeps its low 32 bits. */
  function ToU32(x: int): (r: U32)
    ensures 0 <= x < U32_LIMIT ==> r == x
  {
    x % U32_LIMIT
  }

  function FieldOr0(fields: seq<int>, i: nat): U32 {
    if i < |fields| then ToU32(fields[i]) else 0
  }

  /** `to_version`: components that were not converted keep the initial 0. */
  function ToVersion(s: string): (r: SemanticVersion)
    ensures ScanInt(s).None? ==> r == SemanticVersion(0, 0, 0)
    ensures |ScanFields(s, 3)| < 3 ==> r.patch == 0
    ensures |ScanFields(s, 3)| < 2 ==> r.minor == 0
  {
    var fields := ScanFields(s, 3);
    SemanticVersion(FieldOr0(fields, 0), FieldOr0(fields, 1), FieldOr0(fields, 2))
  }

  // ---------------------------------------------------------------------------
  // Round trip: decimal text of in-range naturals parses back to them.

  function DigitChar(d: nat): (c: char)
    requires d < 10
    ensures IsDigit(c) && c as int - '0' as int == d
  {
    ('0' as int + d) as char
  }

  /** Decimal text of `n` without sign or leading zeros, as `%d` prints it. */
  function Decimal(n: nat): (s: string)
    ensures s != []
    ensures forall i :: 0 <= i < |s| ==> IsDigit(s[i])
  {
    if n < 10 then [DigitChar(n)] else Decimal(n / 10) + [DigitChar(n % 10)]
  }

  lemma {:induction false} DecimalValue(n: nat)
    ensures DigitsValue(Decimal(n)) == n
  {
    if n >= 10 {
      var s := Decimal(n);
      assert s[..|s| - 1] == Decimal(n / 10);
      DecimalValue(n / 10);
    }
  }

  lemma {:induction false} DigitRunOfDigits(d: string, rest: string)
    requires forall i :: 0 <= i < |d| ==> IsDigit(d[i])
    requires rest == [] || !IsDigit(rest[0])
    ensures DigitRun(d + rest) == |d|
  {
    if d != [] {
      assert (d + rest)[1..] == d[1..] + rest;
      DigitRunOfDigits(d[1..], rest);
    }
  }

  /** `%d` reads back exactly the decimal text of a natural, stopping before a non-digit. */
  lemma ScanDecimal(n: nat, rest: string)
    requires rest == [] || !IsDigit(rest[0])
    ensures ScanInt(Decimal(n) + rest) == Some((n, |Decimal(n)|))
  {
    var d := Decimal(n);
    var s := d + rest;
    assert !IsSpace(s[0]) && s[0] != '-' && s[0] != '+' by { assert IsDigit(d[0]); }
    assert LeadingSpaces(s) == 0;
    assert s[0..] == s;
    DigitRunOfDigits(d, rest);
    assert s[0..|d|] == d;
    DecimalValue(n);
  }

  /** Text "a.b.c" followed by anything that does not continue the last number. */
  function Format(a: nat, b: nat, c: nat): string {
    Decimal(a) + "." + Decimal(b) + "." + Decimal(c)
  }

  /** A successful conversion followed by `.` passes the text after the dot to the remaining conversions. */
  lemma ScanFieldsStep(s: string, k: nat, v: int, m: nat)
    requires k > 1 && ScanInt(s) == Some((v, m)) && m < |s| && s[m] == '.'
    ensures ScanFields(s, k) == [v] + ScanFields(s[m + 1..], k - 1)
  {
  }

  /** One conversion followed by a matching `.` hands the rest of the text to the next conversion. */
  lemma ScanFieldsDot(n: nat, t: string, k: nat)
    requires k > 1
    ensures ScanFields(Decimal(n) + ("." + t), k) == [n] + ScanFields(t, k - 1)
  {
    var d := Decimal(n);
    var s := d + ("." + t);
    ScanDecimal(n, "." + t);
    assert s[|d|] == '.';
    assert s[|d| + 1..] == t;
    ScanFieldsStep(s, k, n, |d|);
  }

  /** One conversion followed by neither a digit nor a `.` ends the scan. */
  lemma ScanFieldsLast(n: nat, rest: string, k: nat)
    requires k > 0
    requires rest == [] || !IsDigit(rest[0])
    requires k > 1 ==> rest == [] || rest[0] != '.'
    ensures ScanFields(Decimal(n) + rest, k) == [n]
  {
    var s := Decimal(n) + rest;
    ScanDecimal(n, rest);
    assert |Decimal(n)| < |s| ==> s[|Decimal(n)|] == rest[0];
  }

  /** For naturals that fit `%d`, `to_version` inverts the decimal formatting, whatever follows. */
  lemma ToVersionRoundTrip(a: nat, b: nat, c: nat, rest: string)
    requires a < 0x8000_0000 && b < 0x8000_0000 && c < 0x8000_0000
    requires rest == [] || !IsDigit(rest[0])
    ensures ToVersion(Format(a, b, c) + rest) == SemanticVersion(a, b, c)
  {
    var t2 := Decimal(c) + rest;
    var t1 := Decimal(b) + ("." + t2);
    var s := Decimal(a) + ("." + t1);
    FormatThenRest(a, b, c, rest);
    ScanFieldsLast(c, rest, 1);
    ScanFieldsDot(b, t2, 2);
    ScanFieldsDot(a, t1, 3);
    var fields := ScanFields(s, 3);
    assert fields == [a, b, c];
    assert ToVersion(s) == SemanticVersion(FieldOr0(fields, 0), FieldOr0(fields, 1), FieldOr0(fields, 2));
  }

  lemma Regroup(w: string, x: string, y: string, z: string)
    ensures w + x + y + z == w + (x + (y + z))
  {
  }

  lemma FormatThenRest(a: nat, b: nat, c: nat, rest: string)
    ensures Format(a, b, c) + rest == Decimal(a) + ("." + (Decimal(b) + ("." + (Decimal(c) + rest))))
  {
  }

  /** Partial parse: "a.b" followed by neither a digit nor a `.` leaves the patch at 0. */
  lemma ToVersionTwoFields(a: nat, b: nat, rest: string)
    requires a < 0x8000_0000 && b < 0x8000_0000
    requires rest == [] || (!IsDigit(rest[0]) && rest[0] != '.')
    ensures ToVersion(Decimal(a) + "." + Decimal(b) + rest) == SemanticVersion(a, b, 0)
  {
    var s := Decimal(a) + "." + Decimal(b) + rest;
    TwoFieldsThenRest(a, b, rest);
    var fields := ScanFields(s, 3);
    assert fields == [a, b];
    assert ToVersion(s) == SemanticVersion(FieldOr0(fields, 0), FieldOr0(fields, 1), FieldOr0(fields, 2));
  }

  lemma TwoFieldsThenRest(a: nat, b: nat, rest: string)
    requires rest == [] || (!IsDigit(rest[0]) && rest[0] != '.')
    ensures ScanFields(Decimal(a) + "." + Decimal(b) + rest, 3) == [a, b]
  {
    var t1 := Decimal(b) + rest;
    Regroup(Decimal(a), ".", Decimal(b), rest);
    assert Decimal(a) + "." + Decimal(b) + rest == Decimal(a) + ("." + t1);
    ScanFieldsLast(b, rest, 2);
    assert ScanFields(t1, 2) == [b];
    ScanFieldsDot(a, t1, 3);
    assert ScanFields(Decimal(a) + ("." + t1), 3) == [a] + [b];
  }

  /** Text that does not start with a number yields {0, 0, 0}. */
  lemma ToVersionNoNumber(s: string)
    requires s == [] || (!IsDigit(s[0]) && !IsSpace(s[0]) && s[0] != '-' && s[0] != '+')
    ensures ToVersion(s) == SemanticVersion(0, 0, 0)
  {
    assert s != [] ==> LeadingSpaces(s) == 0;
  }

  // ---------------------------------------------------------------------------
  // `enum class version_stage : index` and `struct version`.

  datatype VersionStage = Preview | Alpha | Beta | Rc | Release | Rolling

  /** The enumerator's underlying index. */
  function StageIndex(s: VersionStage): (i: nat)
    ensures i < 6
  {
    match s
    case Preview => 0
    case Alpha => 1
    case Beta => 2
    case Rc => 3
    case Release => 4
    case Rolling => 5
  }

  /** Conversion of an index back to a stage; indices outside the enumeration have none. */
  function StageFromIndex(i: nat): (r: Option<VersionStage>)
    ensures r.Some? <==> i < 6
    ensures r.Some? ==> StageIndex(r.value) == i
  {
    if i == 0 then Some(Preview)
    else if i == 1 then Some(Alpha)
    else if i == 2 then Some(Beta)
    else if i == 3 then Some(Rc)
    else if i == 4 then Some(Release)
    else if i == 5 then Some(Rolling)
    else None
  }

  /** The enumeration is in index order and indices identify stages. */
  lemma StageOrder(s: VersionStage, t: VersionStage)
    ensures StageFromIndex(StageIndex(s)) == Some(s)
    ensures StageIndex(s) == StageIndex(t) ==> s == t
    ensures StageIndex(Preview) < StageIndex(Alpha) < StageIndex(Beta) < StageIndex(Rc)
            < StageIndex(Release) < StageIndex(Rolling)
  {
  }

  datatype VersionInfo = VersionInfo(year: U32, release: U32, stage: VersionStage, rev: U32)

  /** A default-constructed `version`. */
  function DefaultVersion(): (v: VersionInfo)
    ensures v.year == 2024 && v.release == 0 && v.stage == Rolling && v.rev == 0
  {
    VersionInfo(2024, 0, Rolling, 0)
  }
}
