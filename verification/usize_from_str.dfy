/** Rust's `str::parse::<usize>` on a 64-bit target: an optional leading
    `+`, then one or more ASCII decimal digits (leading zeros allowed),
    denoting a value that fits in 64 bits. Everything else is rejected with
    the kind of `ParseIntError` the standard library reports: `Empty` for
    the empty string, `InvalidDigit` for a lone sign or a character that is
    not a digit (a `-` included), `PosOverflow` for a value beyond 64 bits.
    The digits are scanned left to right and the first failure is the one
    reported. */
module UsizeFromStr {
  import opened Results

  const UsizeMax: int := 0xFFFF_FFFF_FFFF_FFFF

  type Usize = n: int | 0 <= n <= UsizeMax

  /** `std::num::IntErrorKind`, restricted to the kinds an unsigned parse reports. */
  datatype IntErrorKind = Empty | InvalidDigit | PosOverflow

  predicate IsDigit(c: char) {
    '0' <= c <= '9'
  }

  predicate AllDigits(s: string) {
    forall i :: 0 <= i < |s| ==> IsDigit(s[i])
  }

  function DigitValue(c: char): nat
    requires IsDigit(c)
  {
    c as int - '0' as int
  }

  function DigitChar(d: nat): char
    requires d < 10
  {
    ('0' as int + d) as char
  }

  /** The number a digit string denotes, read left to right. */
  function DigitsValue(ds: string): nat
    requires AllDigits(ds)
    decreases |ds|
  {
    if ds == [] then 0
    else DigitsValue(ds[..|ds| - 1]) * 10 + DigitValue(ds[|ds| - 1])
  }

  /** The digits after an optional leading `+`. */
  function Unsigned(s: string): string {
    if |s| > 0 && s[0] == '+' then s[1..] else s
  }

  /** The standard library's digit loop: the accumulator is multiplied by
      ten and the digit added, checking each character for being a digit
      before checking the step for overflow. */
  function Scan(ds: string): (r: Result<Usize, IntErrorKind>)
    ensures r.Ok? <==> AllDigits(ds) && DigitsValue(ds) <= UsizeMax
    ensures r.Ok? ==> r.value == DigitsValue(ds)
    ensures r.Err? ==> r.error != Empty
    decreases |ds|
  {
    if ds == [] then Ok(0)
    else
      var prefix := ds[..|ds| - 1];
      var c := ds[|ds| - 1];
      assert forall i :: 0 <= i < |prefix| ==> prefix[i] == ds[i];
      match Scan(prefix)
      case Err(e) => Err(e)
      case Ok(acc) =>
        if !IsDigit(c) then Err(InvalidDigit)
        else if acc * 10 + DigitValue(c) > UsizeMax then Err(PosOverflow)
        else Ok(acc * 10 + DigitValue(c))
  }

  function ParseUsize(s: string): (r: Result<Usize, IntErrorKind>)
    ensures r.Ok? <==> Unsigned(s) != [] && AllDigits(Unsigned(s)) && DigitsValue(Unsigned(s)) <= UsizeMax
    ensures r.Ok? ==> r.value == DigitsValue(Unsigned(s))
    ensures r == Err(Empty) <==> s == []
    ensures s == "+" || s == "-" ==> r == Err(InvalidDigit)
  {
    if s == [] then Err(Empty)
    else if s == "+" || s == "-" then Err(InvalidDigit)
    else Scan(Unsigned(s))
  }

  /** The first failing position decides the error: a non-digit there is an
      invalid digit, a digit that takes the value past 64 bits an overflow,
      whatever follows. */
  lemma {:induction false} ScanFirstFailure(ds: string, i: nat)
    requires i < |ds| && AllDigits(ds[..i]) && DigitsValue(ds[..i]) <= UsizeMax
    requires !IsDigit(ds[i]) || DigitsValue(ds[..i]) * 10 + DigitValue(ds[i]) > UsizeMax
    ensures Scan(ds) == Err(if IsDigit(ds[i]) then PosOverflow else InvalidDigit)
    decreases |ds|
  {
    var prefix := ds[..|ds| - 1];
    if i < |ds| - 1 {
      assert prefix[..i] == ds[..i];
      assert prefix[i] == ds[i];
      ScanFirstFailure(prefix, i);
    } else {
      assert prefix == ds[..i];
    }
  }

  /** `Scan` on its own, lifted to the whole string: a non-empty input that
      is not a lone sign fails at its first failing digit position. */
  lemma ParseFirstFailure(s: string, i: nat)
    requires s != [] && s != "+" && s != "-"
    requires var ds := Unsigned(s);
      && i < |ds| && AllDigits(ds[..i]) && DigitsValue(ds[..i]) <= UsizeMax
      && (!IsDigit(ds[i]) || DigitsValue(ds[..i]) * 10 + DigitValue(ds[i]) > UsizeMax)
    ensures ParseUsize(s) == Err(if IsDigit(Unsigned(s)[i]) then PosOverflow else InvalidDigit)
  {
    ScanFirstFailure(Unsigned(s), i);
  }

  /** The canonical decimal rendering: no sign, no leading zeros. */
  function DecimalString(n: nat): (s: string)
    decreases n
  {
    if n < 10 then [DigitChar(n)] else DecimalString(n / 10) + [DigitChar(n % 10)]
  }

  predicate Canonical(ds: string) {
    |ds| > 0 && AllDigits(ds) && (ds[0] != '0' || |ds| == 1)
  }

  function Zeros(z: nat): (s: string)
    ensures |s| == z && forall i :: 0 <= i < z ==> s[i] == '0'
  {
    seq(z, _ => '0')
  }

  lemma {:induction false} DecimalStringDenotes(n: nat)
    ensures Canonical(DecimalString(n))
    ensures DigitsValue(DecimalString(n)) == n
    decreases n
  {
    if n >= 10 {
      var prefix := DecimalString(n / 10);
      DecimalStringDenotes(n / 10);
      var s := prefix + [DigitChar(n % 10)];
      assert s[..|s| - 1] == prefix;
      assert s[0] == prefix[0];
    }
  }

  lemma {:induction false} LeadingNonZeroIsPositive(ds: string)
    requires Canonical(ds) && ds[0] != '0'
    ensures DigitsValue(ds) >= 1
    decreases |ds|
  {
    if |ds| > 1 {
      var prefix := ds[..|ds| - 1];
      assert prefix[0] == ds[0];
      LeadingNonZeroIsPositive(prefix);
    }
  }

  /** A canonical digit string is the rendering of the value it denotes. */
  lemma {:induction false} CanonicalIsDecimalString(ds: string)
    requires Canonical(ds)
    ensures DecimalString(DigitsValue(ds)) == ds
    decreases |ds|
  {
    if |ds| > 1 {
      var prefix := ds[..|ds| - 1];
      assert prefix[0] == ds[0];
      assert Canonical(prefix);
      LeadingNonZeroIsPositive(prefix);
      CanonicalIsDecimalString(prefix);
      var n := DigitsValue(ds);
      assert n / 10 == DigitsValue(prefix);
      assert n % 10 == DigitValue(ds[|ds| - 1]);
      assert ds == prefix + [ds[|ds| - 1]];
    }
  }

  /** Leading zeros do not change the value a digit string denotes. */
  lemma {:induction false} LeadingZerosDenoteNothing(z: nat, ds: string)
    requires AllDigits(ds)
    ensures AllDigits(Zeros(z) + ds)
    ensures DigitsValue(Zeros(z) + ds) == DigitsValue(ds)
    decreases |ds|
  {
    var s := Zeros(z) + ds;
    assert AllDigits(s) by {
      forall i | 0 <= i < |s| ensures IsDigit(s[i]) {
        if i >= z { assert s[i] == ds[i - z]; }
      }
    }
    if ds == [] {
      ZerosDenoteZero(z);
      assert s == Zeros(z);
    } else {
      var prefix := ds[..|ds| - 1];
      LeadingZerosDenoteNothing(z, prefix);
      assert s[..|s| - 1] == Zeros(z) + prefix;
      assert s[|s| - 1] == ds[|ds| - 1];
    }
  }

  lemma {:induction false} ZerosDenoteZero(z: nat)
    ensures AllDigits(Zeros(z)) && DigitsValue(Zeros(z)) == 0
    decreases z
  {
    if z > 0 {
      ZerosDenoteZero(z - 1);
      assert Zeros(z)[..z - 1] == Zeros(z - 1);
    }
  }

  /** Parsing inverts rendering, with or without a leading `+`. */
  lemma ParseDecimalString(n: Usize)
    ensures ParseUsize(DecimalString(n)) == Ok(n)
    ensures ParseUsize("+" + DecimalString(n)) == Ok(n)
  {
    DecimalStringDenotes(n);
    var s := DecimalString(n);
    assert Unsigned(s) == s;
    assert Unsigned("+" + s) == s;
  }

  /** A zero-padded rendering is a digit string denoting the value. */
  lemma PaddedRenderingDenotes(z: nat, n: nat)
    ensures var s := Zeros(z) + DecimalString(n);
      s != [] && IsDigit(s[0]) && AllDigits(s) && DigitsValue(s) == n
  {
    DecimalStringDenotes(n);
    LeadingZerosDenoteNothing(z, DecimalString(n));
  }

  /** Leading zeros are accepted and ignored, with or without a leading `+`. */
  lemma ParseLeadingZeros(z: nat, n: Usize)
    ensures ParseUsize(Zeros(z) + DecimalString(n)) == Ok(n)
    ensures ParseUsize("+" + Zeros(z) + DecimalString(n)) == Ok(n)
  {
    var s := Zeros(z) + DecimalString(n);
    PaddedRenderingDenotes(z, n);
    assert Unsigned(s) == s;
    var p := "+" + s;
    assert p == "+" + Zeros(z) + DecimalString(n);
    assert Unsigned(p) == s;
  }

  /** The number of leading zeros that can be dropped while keeping at least one digit. */
  function DroppableZeros(ds: string): (z: nat)
    ensures z < |ds| || ds == []
    decreases |ds|
  {
    if |ds| > 1 && ds[0] == '0' then 1 + DroppableZeros(ds[1..]) else 0
  }

  lemma {:induction false} DropZeros(ds: string)
    requires ds != [] && AllDigits(ds)
    ensures var z := DroppableZeros(ds);
      ds == Zeros(z) + ds[z..] && Canonical(ds[z..])
    decreases |ds|
  {
    if |ds| > 1 && ds[0] == '0' {
      var tail := ds[1..];
      DropZeros(tail);
      var z := DroppableZeros(tail);
      assert ds[1 + z..] == tail[z..];
      assert ds == [ds[0]] + tail;
      assert Zeros(1 + z) == ['0'] + Zeros(z);
    }
  }

  /** Every accepted string is the rendering of its value, after an optional
      `+` and some leading zeros. */
  lemma ParseIsPaddedRendering(s: string, n: Usize)
    requires ParseUsize(s) == Ok(n)
    ensures exists z :: Unsigned(s) == Zeros(z) + DecimalString(n)
  {
    var ds := Unsigned(s);
    DropZeros(ds);
    var z := DroppableZeros(ds);
    var rest := ds[z..];
    LeadingZerosDenoteNothing(z, rest);
    CanonicalIsDecimalString(rest);
    assert ds == Zeros(z) + DecimalString(n);
  }

  /** Rendering inverts parsing on inputs written without sign or leading zeros. */
  lemma ParseIsCanonical(s: string)
    requires Canonical(s)
    requires ParseUsize(s).Ok?
    ensures DecimalString(ParseUsize(s).value) == s
  {
    assert Unsigned(s) == s;
    CanonicalIsDecimalString(s);
  }

  /** The values beyond 64 bits are rejected as an overflow even when well formed. */
  lemma ParseRejectsOverflow(n: nat)
    requires n > UsizeMax
    ensures ParseUsize(DecimalString(n)) == Err(PosOverflow)
  {
    DecimalStringDenotes(n);
    var s := DecimalString(n);
    assert Unsigned(s) == s;
    var i := FirstOverflow(s);
  }

  /** The position at which a well-formed digit string first overflows. */
  lemma {:induction false} FirstOverflow(ds: string) returns (i: nat)
    requires ds != [] && AllDigits(ds) && DigitsValue(ds) > UsizeMax
    ensures i < |ds| && DigitsValue(ds[..i]) <= UsizeMax
    ensures DigitsValue(ds[..i]) * 10 + DigitValue(ds[i]) > UsizeMax
    ensures Scan(ds) == Err(PosOverflow)
    decreases |ds|
  {
    var prefix := ds[..|ds| - 1];
    assert AllDigits(prefix) by {
      forall k | 0 <= k < |prefix| ensures IsDigit(prefix[k]) { assert prefix[k] == ds[k]; }
    }
    if prefix != [] && DigitsValue(prefix) > UsizeMax {
      i := FirstOverflow(prefix);
      assert prefix[..i] == ds[..i];
      assert prefix[i] == ds[i];
    } else {
      i := |ds| - 1;
      assert ds[..i] == prefix;
    }
    ScanFirstFailure(ds, i);
  }
}
