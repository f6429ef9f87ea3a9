/**
 The identifier allocator of the deck builder: a C# `uint` counter that starts at 256
 and is incremented once per slide, and the relationship id "rel" + decimal(counter)
 under which each slide part is registered.
 */
module Identifiers {
  import opened Wrappers

  const UInt32Modulus: int := 0x1_0000_0000

  /** The values of a C# `uint`. */
  type UInt32 = x: int | 0 <= x < 0x1_0000_0000

  /** ST_SlideId (ECMA-376 Part 1, section 19.7.13): at least 256 and below 2147483648. */
  const MinSlideId: UInt32 := 256
  const SlideIdLimit: int := 0x8000_0000

  predicate InSlideIdRange(id: int) {
    MinSlideId <= id < SlideIdLimit
  }

  /** `currentSlideId++` on a `uint`: unchecked, so it wraps at 2^32. */
  function Increment(x: UInt32): (r: UInt32)
    ensures x + 1 < UInt32Modulus ==> r == x + 1
    ensures x + 1 == UInt32Modulus ==> r == 0
  {
    (x + 1) % UInt32Modulus
  }

  /** The counter value when the k-th image (0-based) is processed. */
  function SlideIdAt(k: nat): UInt32 {
    if k == 0 then MinSlideId else Increment(SlideIdAt(k - 1))
  }

  lemma {:induction false} SlideIdAtClosedForm(k: nat)
    ensures SlideIdAt(k) == (MinSlideId + k) % UInt32Modulus
  {
    if k > 0 {
      SlideIdAtClosedForm(k - 1);
      var prev := SlideIdAt(k - 1);
      assert SlideIdAt(k) == (prev + 1) % UInt32Modulus;
      if MinSlideId + k - 1 < UInt32Modulus - 1 {
        assert prev == MinSlideId + k - 1;
      }
    }
  }

  /** Without wrap-around the k-th image gets 256 + k, so each image advances the id by one. */
  lemma SlideIdAtNoWrap(k: nat)
    requires MinSlideId + k < UInt32Modulus
    ensures SlideIdAt(k) == MinSlideId + k
  {
    SlideIdAtClosedForm(k);
  }

  /** The ids of n images all lie in the ST_SlideId range exactly when 256 + n <= 2^31. */
  lemma SlideIdsInRangeIff(n: nat)
    ensures (forall k :: 0 <= k < n ==> InSlideIdRange(SlideIdAt(k))) <==> MinSlideId + n <= SlideIdLimit
  {
    if MinSlideId + n <= SlideIdLimit {
      forall k | 0 <= k < n ensures InSlideIdRange(SlideIdAt(k)) {
        SlideIdAtNoWrap(k);
      }
    } else {
      var k := SlideIdLimit - MinSlideId;
      SlideIdAtNoWrap(k);
      assert !InSlideIdRange(SlideIdAt(k));
    }
  }

  /** As long as the counter does not wrap, ids are strictly increasing. */
  lemma SlideIdsIncreasing(n: nat)
    requires MinSlideId + n <= UInt32Modulus
    ensures forall j, k :: 0 <= j < k < n ==> SlideIdAt(j) < SlideIdAt(k)
  {
    forall j, k | 0 <= j < k < n ensures SlideIdAt(j) < SlideIdAt(k) {
      SlideIdAtNoWrap(j);
      SlideIdAtNoWrap(k);
    }
  }

  /** After 2^32 increments the counter is back where it was: the ids repeat with period 2^32. */
  lemma SlideIdWrapsAround(k: nat)
    ensures SlideIdAt(k + UInt32Modulus) == SlideIdAt(k)
  {
    SlideIdAtClosedForm(k);
    SlideIdAtClosedForm(k + UInt32Modulus);
    ModPeriod(MinSlideId + k);
  }

  lemma ModPeriod(a: nat)
    ensures (a + UInt32Modulus) % UInt32Modulus == a % UInt32Modulus
  {
    var q, r := a / UInt32Modulus, a % UInt32Modulus;
    assert a + UInt32Modulus == (q + 1) * UInt32Modulus + r;
  }

  // ---- decimal text of a uint, as C#'s string concatenation writes it ----

  predicate IsDigit(c: char) {
    '0' <= c <= '9'
  }

  function DigitChar(d: nat): (c: char)
    requires d < 10
    ensures IsDigit(c)
  {
    ('0' as int + d) as char
  }

  function DigitValue(c: char): int {
    c as int - '0' as int
  }

  /** The shortest decimal numeral of n: what "rel" + n puts after "rel". */
  function Decimal(n: nat): string
    decreases n
  {
    if n < 10 then [DigitChar(n)] else Decimal(n / 10) + [DigitChar(n % 10)]
  }

  /** Decimal(n) is a non-empty string of digits, with a leading '0' only for 0. */
  lemma {:induction false} DecimalIsNumeral(n: nat)
    ensures var s := Decimal(n);
      && |s| >= 1 && (forall i :: 0 <= i < |s| ==> IsDigit(s[i]))
      && (s[0] == '0' ==> n == 0)
    decreases n
  {
    if n >= 10 {
      DecimalIsNumeral(n / 10);
      var s := Decimal(n);
      assert s[..|s| - 1] == Decimal(n / 10);
    }
  }

  /** Reads a string of digits back as a number. */
  function DecimalValue(s: string): int
    decreases |s|
  {
    if s == [] then 0 else DecimalValue(s[..|s| - 1]) * 10 + DigitValue(s[|s| - 1])
  }

  lemma {:induction false} DecimalRoundTrip(n: nat)
    ensures DecimalValue(Decimal(n)) == n
    decreases n
  {
    if n >= 10 {
      var s := Decimal(n);
      assert s[..|s| - 1] == Decimal(n / 10);
      DecimalRoundTrip(n / 10);
    }
  }

  const RelIdPrefix: string := "rel"

  /** `relId = "rel" + currentSlideId`. */
  function RelId(id: UInt32): string {
    RelIdPrefix + Decimal(id)
  }

  /** Recovers the slide id from a relationship id of the form "rel" followed by digits. */
  function SlideIdOfRelId(s: string): Option<int> {
    if |s| > |RelIdPrefix| && s[..|RelIdPrefix|] == RelIdPrefix
       && (forall i :: |RelIdPrefix| <= i < |s| ==> IsDigit(s[i]))
    then Some(DecimalValue(s[|RelIdPrefix|..]))
    else None
  }

  lemma RelIdRoundTrip(id: UInt32)
    ensures SlideIdOfRelId(RelId(id)) == Some(id)
  {
    var s := RelId(id);
    assert s[|RelIdPrefix|..] == Decimal(id);
    DecimalIsNumeral(id);
    DecimalRoundTrip(id);
  }

  /** Different slide ids give different relationship ids. */
  lemma RelIdInjective(a: UInt32, b: UInt32)
    ensures RelId(a) == RelId(b) <==> a == b
  {
    RelIdRoundTrip(a);
    RelIdRoundTrip(b);
  }

  /** Without wrap-around the relationship ids of one build are pairwise distinct. */
  lemma RelIdsDistinct(n: nat)
    requires MinSlideId + n <= UInt32Modulus
    ensures forall j, k :: 0 <= j < k < n ==> RelId(SlideIdAt(j)) != RelId(SlideIdAt(k))
  {
    SlideIdsIncreasing(n);
    forall j, k | 0 <= j < k < n ensures RelId(SlideIdAt(j)) != RelId(SlideIdAt(k)) {
      RelIdInjective(SlideIdAt(j), SlideIdAt(k));
    }
  }
}
