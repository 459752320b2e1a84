/** Rust's `str::parse::<u32>()`, which lib.rs uses for `integer_value`
    leaves and for the default value of a generic: an optional leading '+',
    then one or more ASCII decimal digits whose value fits in 32 bits. Digits
    are scanned left to right and the first problem met decides the error. */
module U32Text {
  import opened RustCore

  const U32_LIMIT: int := 0x1_0000_0000

  newtype u32 = x: int | 0 <= x < 0x1_0000_0000

  datatype ParseResult = Parsed(value: u32) | ParseError(kind: IntErrorKind)

  predicate IsDigit(c: char) {
    '0' <= c <= '9'
  }

  predicate AllDigits(s: string) {
    forall i :: 0 <= i < |s| ==> IsDigit(s[i])
  }

  function DigitValue(c: char): (d: nat)
    requires IsDigit(c)
    ensures d < 10
  {
    (c as int) - ('0' as int)
  }

  function DigitChar(d: nat): (c: char)
    requires d < 10
    ensures IsDigit(c) && DigitValue(c) == d
  {
    ('0' as int + d) as char
  }

  /** The positional (base ten) value of a string of digits. */
  function Value(ds: string): nat
    requires AllDigits(ds)
  {
    if ds == [] then 0 else Value(ds[..|ds| - 1]) * 10 + DigitValue(ds[|ds| - 1])
  }

  /** The shortest decimal spelling of `v`. */
  function DecimalText(v: nat): string
  {
    if v < 10 then [DigitChar(v)] else DecimalText(v / 10) + [DigitChar(v % 10)]
  }

  /** The text that follows an optional leading '+'. */
  function Unsigned(s: string): (ds: string)
    ensures |ds| <= |s|
  {
    if 0 < |s| && s[0] == '+' then s[1..] else s
  }

  /** The digit loop of `u32::from_str_radix(_, 10)`: `acc` is the value read so far. */
  function Accumulate(ds: string, acc: nat): ParseResult
    requires acc < U32_LIMIT
  {
    if ds == [] then Parsed(acc as u32)
    else if !IsDigit(ds[0]) then ParseError(InvalidDigit)
    else if acc * 10 + DigitValue(ds[0]) >= U32_LIMIT then ParseError(PosOverflow)
    else Accumulate(ds[1..], acc * 10 + DigitValue(ds[0]))
  }

  /** `s.parse::<u32>()`. A lone '+' or '-' is an invalid digit; '-' is
      otherwise just a character that is not a digit. */
  function ParseU32(s: string): ParseResult
  {
    if |s| == 0 then ParseError(Empty)
    else if (s[0] == '+' || s[0] == '-') && |s| == 1 then ParseError(InvalidDigit)
    else Accumulate(Unsigned(s), 0)
  }

  /** The length of the run of digits that `ds` starts with. */
  function DigitRun(ds: string): (k: nat)
    ensures k <= |ds| && AllDigits(ds[..k])
    ensures k < |ds| ==> !IsDigit(ds[k])
  {
    if ds == [] || !IsDigit(ds[0]) then 0
    else
      var k := 1 + DigitRun(ds[1..]);
      assert ds[..k] == [ds[0]] + ds[1..][..k - 1];
      k
  }

  /** Text accepted by `ParseU32`: an optional '+', then digits worth less than 2^32. */
  predicate IsU32Text(s: string) {
    var ds := Unsigned(s);
    ds != [] && AllDigits(ds) && Value(ds) < U32_LIMIT
  }

  lemma AllDigitsConcat(p: string, q: string)
    requires AllDigits(p) && AllDigits(q)
    ensures AllDigits(p + q)
  {
  }

  /** Appending digits never lowers the value. */
  lemma {:induction false} ValueGrows(p: string, q: string)
    requires AllDigits(p) && AllDigits(q)
    ensures AllDigits(p + q) && Value(p + q) >= Value(p)
  {
    AllDigitsConcat(p, q);
    if q != [] {
      var q' := q[..|q| - 1];
      ValueGrows(p, q');
      assert (p + q)[..|p + q| - 1] == p + q';
    } else {
      assert p + q == p;
    }
  }

  /** The digit loop, started on the value of the digits `p` already read,
      succeeds exactly when the rest are digits and the whole fits in 32 bits,
      and then returns the value of the whole. */
  lemma {:induction false} AccumulateValue(p: string, ds: string)
    requires AllDigits(p) && Value(p) < U32_LIMIT
    ensures var r := Accumulate(ds, Value(p));
      && (r.Parsed? <==> AllDigits(ds) && AllDigits(p + ds) && Value(p + ds) < U32_LIMIT)
      && (r.Parsed? ==> AllDigits(p + ds) && r.value as int == Value(p + ds))
    decreases |ds|
  {
    if ds == [] {
      assert p + ds == p;
    } else if IsDigit(ds[0]) {
      var p' := p + [ds[0]];
      assert p'[..|p'| - 1] == p;
      assert Value(p') == Value(p) * 10 + DigitValue(ds[0]);
      assert p' + ds[1..] == p + ds;
      if Value(p') >= U32_LIMIT {
        if AllDigits(ds) {
          ValueGrows(p', ds[1..]);
        }
      } else {
        AccumulateValue(p', ds[1..]);
      }
    }
  }

  /** `parse::<u32>()` succeeds exactly on u32 text, with the value of its digits. */
  lemma ParseU32Meaning(s: string)
    ensures ParseU32(s).Parsed? <==> IsU32Text(s)
    ensures ParseU32(s).Parsed? ==> ParseU32(s).value as int == Value(Unsigned(s))
    ensures ParseU32(s) == ParseError(Empty) <==> s == ""
  {
    if |s| > 0 && !((s[0] == '+' || s[0] == '-') && |s| == 1) {
      assert AllDigits([]);
      AccumulateValue([], Unsigned(s));
      assert [] + Unsigned(s) == Unsigned(s);
      if ParseU32(s) == ParseError(Empty) {
        assert Accumulate(Unsigned(s), 0) == ParseError(Empty);
        AccumulateNeverEmpty(Unsigned(s), 0);
      }
    }
  }

  /** Which error the digit loop reports, started on the value of the digits
      `p` already read: an overflow exactly when the leading run of digits
      pushes the value to 2^32 or beyond, and an invalid digit exactly when a
      non-digit ends that run while the value still fits. */
  lemma {:induction false} AccumulateKinds(p: string, ds: string)
    requires AllDigits(p) && Value(p) < U32_LIMIT
    ensures AllDigits(p + ds[..DigitRun(ds)])
    ensures var k := DigitRun(ds);
      && (Accumulate(ds, Value(p)) == ParseError(PosOverflow) <==> Value(p + ds[..k]) >= U32_LIMIT)
      && (Accumulate(ds, Value(p)) == ParseError(InvalidDigit) <==> k < |ds| && Value(p + ds[..k]) < U32_LIMIT)
    decreases |ds|
  {
    var k := DigitRun(ds);
    AllDigitsConcat(p, ds[..k]);
    if ds == [] || !IsDigit(ds[0]) {
      assert p + ds[..k] == p;
    } else {
      var p' := p + [ds[0]];
      var rest := ds[1..][..k - 1];
      assert p'[..|p'| - 1] == p;
      assert Value(p') == Value(p) * 10 + DigitValue(ds[0]);
      assert p + ds[..k] == p' + rest;
      if Value(p') >= U32_LIMIT {
        ValueGrows(p', rest);
      } else {
        AccumulateKinds(p', ds[1..]);
      }
    }
  }

  /** The error `parse::<u32>()` reports, besides `Empty` for the empty text:
      `PosOverflow` exactly when the leading run of digits is worth 2^32 or
      more, and `InvalidDigit` exactly for a lone sign or when a non-digit
      ends that run while its value still fits. */
  lemma ParseErrorKinds(s: string)
    ensures var ds := Unsigned(s); var k := DigitRun(ds);
      && (ParseU32(s) == ParseError(PosOverflow) <==> Value(ds[..k]) >= U32_LIMIT)
      && (ParseU32(s) == ParseError(InvalidDigit) <==>
            (|s| == 1 && (s[0] == '+' || s[0] == '-')) || (k < |ds| && Value(ds[..k]) < U32_LIMIT))
  {
    var ds := Unsigned(s);
    if |s| == 1 && s[0] == '+' {
      assert ds == [];
    } else if |s| > 0 && !((s[0] == '+' || s[0] == '-') && |s| == 1) {
      assert AllDigits([]);
      AccumulateKinds([], ds);
      assert [] + ds[..DigitRun(ds)] == ds[..DigitRun(ds)];
    }
  }

  lemma {:induction false} AccumulateNeverEmpty(ds: string, acc: nat)
    requires acc < U32_LIMIT
    ensures Accumulate(ds, acc) != ParseError(Empty)
  {
    if ds != [] && IsDigit(ds[0]) && acc * 10 + DigitValue(ds[0]) < U32_LIMIT {
      AccumulateNeverEmpty(ds[1..], acc * 10 + DigitValue(ds[0]));
    }
  }

  lemma {:induction false} DecimalTextValue(v: nat)
    ensures DecimalText(v) != [] && AllDigits(DecimalText(v)) && Value(DecimalText(v)) == v
  {
    if v >= 10 {
      DecimalTextValue(v / 10);
      var t := DecimalText(v);
      assert t[..|t| - 1] == DecimalText(v / 10);
    }
  }

  /** Printing a u32 in decimal and parsing it back gives the same value. */
  lemma ParseDecimalText(v: u32)
    ensures ParseU32(DecimalText(v as nat)) == Parsed(v)
  {
    var t := DecimalText(v as nat);
    DecimalTextValue(v as nat);
    assert Unsigned(t) == t;
    ParseU32Meaning(t);
  }
}
