/** Decimal formatting (`fmt`'s `%d`, `fmt.Sprint` of an int) and `strconv.Atoi` on a 64-bit platform. */
module Strconv {
  import opened Wrappers
  import opened GoInt

  predicate IsDigit(c: char)
  {
    '0' <= c <= '9'
  }

  predicate AllDigits(s: string)
  {
    forall i :: 0 <= i < |s| ==> IsDigit(s[i])
  }

  function DigitChar(d: nat): (c: char)
    requires d < 10
    ensures IsDigit(c)
  {
    ('0' as int + d) as char
  }

  function DigitValue(c: char): (d: nat)
    requires IsDigit(c)
    ensures d < 10
  {
    c as int - '0' as int
  }

  /** The decimal numeral of `n`: digits only, most significant first, no leading zero. */
  function Decimal(n: nat): (s: string)
    ensures s != [] && AllDigits(s)
    ensures |s| > 1 ==> s[0] != '0'
  {
    if n < 10 then [DigitChar(n)] else Decimal(n / 10) + [DigitChar(n % 10)]
  }

  /** `fmt.Sprintf("%d", n)`: a minus sign for negative numbers, then the numeral. */
  function Itoa(n: int): string
  {
    if n < 0 then "-" + Decimal(-n) else Decimal(n)
  }

  /** The outcome of the digit loop of `strconv.ParseUint` in base 10 with 64 bits. */
  datatype Scan = Value(n: nat) | BadDigit | Overflow

  /** The digit loop of `strconv.ParseUint`: left to right, a non-digit is a syntax error and the
      first digit that takes the value past the uint64 maximum is a range error. */
  function ScanUint(s: string, acc: nat): Scan
  {
    if s == [] then Value(acc)
    else if !IsDigit(s[0]) then BadDigit
    else
      var n := acc * 10 + DigitValue(s[0]);
      if n > MaxUint64 then Overflow else ScanUint(s[1..], n)
  }

  datatype NumErrorKind = ErrSyntax | ErrRange

  /** `strconv.NumError`: the function name, the whole input and the kind of failure. */
  datatype NumError = NumError(func: string, num: string, err: NumErrorKind)

  /** The digits of `s` after an optional leading sign. */
  function Unsigned(s: string): string
  {
    if s != [] && (s[0] == '+' || s[0] == '-') then s[1..] else s
  }

  /** An optionally signed, non-empty run of decimal digits: the only inputs `Atoi` can accept. */
  predicate Numeral(s: string)
  {
    Unsigned(s) != [] && AllDigits(Unsigned(s))
  }

  /** `strconv.Atoi` with a 64-bit `int`. Its fast path for inputs shorter than 19 bytes gives the
      same results as the general path modelled here, since no such input can overflow. */
  function Atoi(s: string): (r: Result<int, NumError>)
    ensures r.Success? ==> IsInt64(r.value)
    ensures r.Failure? ==> r.error.func == "Atoi" && r.error.num == s
  {
    var body := Unsigned(s);
    var neg := s != [] && s[0] == '-';
    if body == [] then Failure(NumError("Atoi", s, ErrSyntax))
    else
      match ScanUint(body, 0)
      case BadDigit => Failure(NumError("Atoi", s, ErrSyntax))
      case Overflow => Failure(NumError("Atoi", s, ErrRange))
      case Value(u) =>
        if !neg && u > MaxInt64 then Failure(NumError("Atoi", s, ErrRange))
        else if neg && u > -MinInt64 then Failure(NumError("Atoi", s, ErrRange))
        else
          var w: int := u;
          var v := if neg then -w else w;
          Success(v)
  }

  /** The digit loop never reports a bad digit on digits, and never yields a value past one. */
  lemma {:induction false} ScanUintSyntax(s: string, acc: nat)
    ensures AllDigits(s) ==> !ScanUint(s, acc).BadDigit?
    ensures !AllDigits(s) ==> !ScanUint(s, acc).Value?
  {
    if s != [] && IsDigit(s[0]) {
      var n := acc * 10 + DigitValue(s[0]);
      if n <= MaxUint64 {
        ScanUintSyntax(s[1..], n);
        assert AllDigits(s) <==> AllDigits(s[1..]) by {
          assert forall i :: 0 <= i < |s[1..]| ==> s[1..][i] == s[i + 1];
        }
      }
    }
  }

  /** Atoi accepts only numerals, and on a numeral it can fail only with a range error. */
  lemma AtoiAcceptsNumerals(s: string)
    ensures Atoi(s).Success? ==> Numeral(s)
    ensures Numeral(s) ==> Atoi(s).Success? || Atoi(s).error.err == ErrRange
  {
    ScanUintSyntax(Unsigned(s), 0);
  }

  /** Scanning one more digit continues from the value scanned so far. */
  lemma {:induction false} ScanUintSnoc(s: string, c: char, acc: nat)
    requires IsDigit(c)
    ensures ScanUint(s + [c], acc) ==
            match ScanUint(s, acc)
            case Value(m) => if m * 10 + DigitValue(c) > MaxUint64 then Overflow else Value(m * 10 + DigitValue(c))
            case other => other
  {
    if s == [] {
      assert s + [c] == [c];
      assert [c][1..] == [];
    } else {
      assert (s + [c])[0] == s[0] && (s + [c])[1..] == s[1..] + [c];
      if IsDigit(s[0]) {
        var n := acc * 10 + DigitValue(s[0]);
        if n <= MaxUint64 {
          ScanUintSnoc(s[1..], c, n);
        }
      }
    }
  }

  /** The digit loop reads back every numeral `Decimal` writes, up to the uint64 maximum. */
  lemma {:induction false} ScanDecimal(n: nat)
    requires n <= MaxUint64
    ensures ScanUint(Decimal(n), 0) == Value(n)
  {
    if n < 10 {
      assert Decimal(n) == [DigitChar(n)];
      assert ScanUint([DigitChar(n)][1..], n) == Value(n);
    } else {
      ScanDecimal(n / 10);
      ScanUintSnoc(Decimal(n / 10), DigitChar(n % 10), 0);
    }
  }

  /** Round trip: Atoi parses back every int64 that `%d` prints. */
  lemma AtoiItoa(n: int)
    requires IsInt64(n)
    ensures Atoi(Itoa(n)) == Success(n)
  {
    if n < 0 {
      ScanDecimal(-n);
      assert Unsigned(Itoa(n)) == Decimal(-n);
    } else {
      ScanDecimal(n);
      var d := Decimal(n);
      assert Unsigned(d) == d by {
        assert IsDigit(d[0]);
      }
    }
  }

  /** A run of digits (the shape the Jenkins build pattern captures) never fails with a syntax
      error: either it parses to a non-negative number or it is out of range. */
  lemma AtoiDigits(ds: string)
    requires ds != [] && AllDigits(ds)
    ensures || (Atoi(ds).Success? && Atoi(ds).value >= 0)
            || Atoi(ds) == Failure(NumError("Atoi", ds, ErrRange))
  {
    assert IsDigit(ds[0]);
    assert Unsigned(ds) == ds;
    ScanUintSyntax(ds, 0);
  }
}
