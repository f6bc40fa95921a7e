/**
 * The two conversions of Go's `strconv` package that the playground commands
 * rely on: `Itoa`, which renders the control port in the target address, and
 * `Atoi`, which reads a process id from a command-line argument.  Go's `int` is
 * 64 bits wide here.  `Atoi` follows `ParseInt(s, 10, 0)`: an optional sign,
 * then decimal digits scanned left to right by `ParseUint`, which stops with a
 * range error as soon as the accumulated value leaves 64 unsigned bits and with
 * a syntax error at the first character that is not a digit.
 */
module Strconv {
  import opened Common

  predicate IsDigit(c: char) { '0' <= c <= '9' }

  function DigitValue(c: char): nat
    requires IsDigit(c)
  {
    c as int - '0' as int
  }

  function DigitChar(d: nat): (c: char)
    requires d < 10
    ensures IsDigit(c) && DigitValue(c) == d
  {
    ('0' as int + d) as char
  }

  predicate AllDigits(s: string) { forall i :: 0 <= i < |s| ==> IsDigit(s[i]) }

  /** Decimal digits of a natural number, most significant first, no leading zero. */
  function Digits(m: nat): (s: string)
    ensures |s| > 0 && AllDigits(s)
    ensures |s| > 1 ==> s[0] != '0'
  {
    if m < 10 then [DigitChar(m)] else Digits(m / 10) + [DigitChar(m % 10)]
  }

  /** strconv.Itoa: decimal form with a leading '-' for negative numbers. */
  function Itoa(n: int): string
  {
    if n < 0 then "-" + Digits(-n) else Digits(n)
  }

  /** Left fold of decimal digits onto an accumulator: the value the digits denote. */
  function Horner(acc: nat, s: string): nat
    requires AllDigits(s)
    decreases |s|
  {
    if s == [] then acc else Horner(acc * 10 + DigitValue(s[0]), s[1..])
  }

  datatype NumError = ErrSyntax | ErrRange

  datatype UintScan = UValue(n: nat) | USyntax | URange

  /** The digit loop of ParseUint in base 10 with 64-bit size. */
  function ScanUint(s: string, acc: nat): (r: UintScan)
    requires acc <= MaxUint64
    ensures r.UValue? ==> r.n <= MaxUint64
  {
    if s == [] then UValue(acc)
    else if !IsDigit(s[0]) then USyntax
    else if acc * 10 + DigitValue(s[0]) > MaxUint64 then URange
    else ScanUint(s[1..], acc * 10 + DigitValue(s[0]))
  }

  /** What strconv.Atoi returns: the value (also on error) and the error, if any. */
  datatype Parsed = Parsed(value: int, err: Option<NumError>)

  function Atoi(s: string): (r: Parsed)
    ensures IsInt64(r.value)
    ensures r.err == Some(ErrSyntax) ==> r.value == 0
    ensures r.err == Some(ErrRange) ==> |s| > 0 && r.value == (if s[0] == '-' then MinInt64 else MaxInt64)
  {
    if s == [] then Parsed(0, Some(ErrSyntax))
    else
      var neg := s[0] == '-';
      var body := if s[0] == '+' || s[0] == '-' then s[1..] else s;
      if body == [] then Parsed(0, Some(ErrSyntax))
      else
        match ScanUint(body, 0)
        case USyntax => Parsed(0, Some(ErrSyntax))
        case URange => if neg then Parsed(MinInt64, Some(ErrRange)) else Parsed(MaxInt64, Some(ErrRange))
        case UValue(un) =>
          if !neg && un > MaxInt64 then Parsed(MaxInt64, Some(ErrRange))
          else if neg && un > -MinInt64 then Parsed(MinInt64, Some(ErrRange))
          else Parsed(if neg then 0 - un else un, None)
  }

  lemma {:induction false} HornerAtLeast(acc: nat, s: string)
    requires AllDigits(s)
    ensures Horner(acc, s) >= acc
    ensures |s| > 0 ==> Horner(acc, s) >= acc * 10 + DigitValue(s[0])
    decreases |s|
  {
    if s != [] {
      HornerAtLeast(acc * 10 + DigitValue(s[0]), s[1..]);
    }
  }

  lemma {:induction false} HornerSnoc(acc: nat, s: string, c: char)
    requires AllDigits(s) && IsDigit(c)
    ensures AllDigits(s + [c])
    ensures Horner(acc, s + [c]) == Horner(acc, s) * 10 + DigitValue(c)
    decreases |s|
  {
    if s == [] {
      assert s + [c] == [c];
    } else {
      assert (s + [c])[1..] == s[1..] + [c];
      HornerSnoc(acc * 10 + DigitValue(s[0]), s[1..], c);
    }
  }

  /** The digits of m denote m. */
  lemma {:induction false} HornerDigits(m: nat)
    ensures Horner(0, Digits(m)) == m
  {
    if m < 10 {
      assert Horner(0, [DigitChar(m)]) == Horner(DigitValue(DigitChar(m)), []);
    } else {
      HornerDigits(m / 10);
      HornerSnoc(0, Digits(m / 10), DigitChar(m % 10));
    }
  }

  /** Scanning digits that stay within 64 unsigned bits yields the value they denote. */
  lemma {:induction false} ScanUintValue(s: string, acc: nat)
    requires acc <= MaxUint64 && AllDigits(s) && Horner(acc, s) <= MaxUint64
    ensures ScanUint(s, acc) == UValue(Horner(acc, s))
    decreases |s|
  {
    if s != [] {
      HornerAtLeast(acc, s);
      ScanUintValue(s[1..], acc * 10 + DigitValue(s[0]));
    }
  }

  /** Scanning digits whose value exceeds 64 unsigned bits reports a range error. */
  lemma {:induction false} ScanUintRange(s: string, acc: nat)
    requires acc <= MaxUint64 && AllDigits(s) && Horner(acc, s) > MaxUint64
    ensures ScanUint(s, acc) == URange
    decreases |s|
  {
    if acc * 10 + DigitValue(s[0]) <= MaxUint64 {
      ScanUintRange(s[1..], acc * 10 + DigitValue(s[0]));
    }
  }

  /** An optional sign followed by digits parses without error exactly when the value fits in an int. */
  lemma AtoiDigits(sign: string, ds: string)
    requires sign == "" || sign == "-" || sign == "+"
    requires |ds| > 0 && AllDigits(ds)
    ensures var v: int := if sign == "-" then 0 - Horner(0, ds) else Horner(0, ds);
      Atoi(sign + ds) == if IsInt64(v) then Parsed(v, None)
                         else if v < 0 then Parsed(MinInt64, Some(ErrRange))
                         else Parsed(MaxInt64, Some(ErrRange))
  {
    var s := sign + ds;
    assert (if s[0] == '+' || s[0] == '-' then s[1..] else s) == ds;
    if Horner(0, ds) <= MaxUint64 {
      ScanUintValue(ds, 0);
    } else {
      ScanUintRange(ds, 0);
    }
  }

  /** Round trip: Atoi reads back exactly what Itoa writes, for every 64-bit int. */
  lemma AtoiItoa(n: int)
    requires IsInt64(n)
    ensures Atoi(Itoa(n)) == Parsed(n, None)
  {
    if n < 0 {
      HornerDigits(-n);
      AtoiDigits("-", Digits(-n));
    } else {
      HornerDigits(n);
      AtoiDigits("", Digits(n));
      assert "" + Digits(n) == Digits(n);
    }
  }

  /**
   * Scanning stops with a syntax error at the first character that is not a
   * digit, provided the digits before it have not already left 64 unsigned bits.
   */
  lemma {:induction false} ScanUintSyntax(s: string, acc: nat, j: nat)
    requires acc <= MaxUint64
    requires j < |s| && AllDigits(s[..j]) && !IsDigit(s[j])
    requires Horner(acc, s[..j]) <= MaxUint64
    ensures ScanUint(s, acc) == USyntax
    decreases j
  {
    if j > 0 {
      HornerAtLeast(acc, s[..j]);
      assert s[..j][0] == s[0];
      assert s[1..][..j - 1] == s[..j][1..];
      ScanUintSyntax(s[1..], acc * 10 + DigitValue(s[0]), j - 1);
    }
  }

  /**
   * An optional sign followed by nothing, or by digits and then a character
   * that is not a digit (before the digits overflow), reads as 0 with a
   * syntax error.
   */
  lemma AtoiSyntax(sign: string, ds: string, j: nat)
    requires sign == "" || sign == "-" || sign == "+"
    requires sign == "" && |ds| > 0 ==> ds[0] != '+' && ds[0] != '-'
    requires ds == [] || (j < |ds| && AllDigits(ds[..j]) && !IsDigit(ds[j]) && Horner(0, ds[..j]) <= MaxUint64)
    ensures Atoi(sign + ds) == Parsed(0, Some(ErrSyntax))
  {
    var s := sign + ds;
    if s != [] {
      assert (if s[0] == '+' || s[0] == '-' then s[1..] else s) == ds;
      if ds != [] {
        ScanUintSyntax(ds, 0, j);
      }
    }
  }

  /**
   * Scanning stops with a range error at the digit that takes the value past
   * 64 unsigned bits, whatever follows it.
   */
  lemma {:induction false} ScanUintRangeFirst(s: string, acc: nat, j: nat)
    requires acc <= MaxUint64
    requires j <= |s| && AllDigits(s[..j]) && Horner(acc, s[..j]) > MaxUint64
    ensures ScanUint(s, acc) == URange
    decreases j
  {
    assert s[..j] != [];
    assert s[..j][0] == s[0];
    if acc * 10 + DigitValue(s[0]) <= MaxUint64 {
      assert s[1..][..j - 1] == s[..j][1..];
      ScanUintRangeFirst(s[1..], acc * 10 + DigitValue(s[0]), j - 1);
    }
  }

  /**
   * An optional sign followed by digits that exceed 64 unsigned bits reads as
   * the bound with the input's sign and a range error, whatever characters
   * follow those digits ("-99999999999999999999x" reads as the minimum).
   */
  lemma AtoiRange(sign: string, ds: string, j: nat)
    requires sign == "" || sign == "-" || sign == "+"
    requires j <= |ds| && AllDigits(ds[..j]) && Horner(0, ds[..j]) > MaxUint64
    ensures Atoi(sign + ds) == if sign == "-" then Parsed(MinInt64, Some(ErrRange)) else Parsed(MaxInt64, Some(ErrRange))
  {
    assert ds[..j] != [];
    assert ds[..j][0] == ds[0];
    var s := sign + ds;
    assert (if s[0] == '+' || s[0] == '-' then s[1..] else s) == ds;
    ScanUintRangeFirst(ds, 0, j);
  }
}
