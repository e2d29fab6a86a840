/** The parts of java.lang that the shim leans on: the 32- and 64-bit integer
    ranges, `Math.toIntExact`, `Long.toString`, `Integer.valueOf(String)`, and
    the exceptions the shim lets escape. */
module JavaLang {
  import opened Wrappers

  const IntMin: int := -0x8000_0000
  const IntMax: int := 0x7fff_ffff
  const LongMin: int := -0x8000_0000_0000_0000
  const LongMax: int := 0x7fff_ffff_ffff_ffff

  /** Java `int`. */
  type Int32 = i: int | IntMin <= i <= IntMax
  /** Java `long`, which is also the host runtime's `int`. */
  type Long = i: int | LongMin <= i <= LongMax

  predicate InIntRange(i: int) {
    IntMin <= i <= IntMax
  }

  /** The exceptions that the modelled code lets escape to its caller. */
  datatype Exception =
    | ClassCast(key: string)        // a typed map getter met a value of another type
    | NullPointer(key: string)      // a typed map getter met no value (absent key or nil)
    | Arithmetic(value: int)        // Math.toIntExact: "integer overflow"
    | NumberFormat(text: string)    // Integer.valueOf on text outside the int range
    | Serialization(reason: string) // a JSON conversion failed

  /** `Math.toIntExact(long)`: the same value as an `int`, or ArithmeticException. */
  function ToIntExact(x: Long): (r: Result<Int32, Exception>)
    ensures r.Success? <==> InIntRange(x)
    ensures r.Success? ==> r.value == x
    ensures r.Failure? ==> r.error == Arithmetic(x)
  {
    if IntMin <= x <= IntMax then Success(x) else Failure(Arithmetic(x))
  }

  predicate IsDigit(c: char) {
    '0' <= c <= '9'
  }

  predicate AllDigits(s: string) {
    forall k :: 0 <= k < |s| ==> IsDigit(s[k])
  }

  function DigitChar(d: nat): char
    requires d < 10
  {
    (('0' as int) + d) as char
  }

  function DigitValue(c: char): nat
    requires IsDigit(c)
  {
    (c as int) - ('0' as int)
  }

  /** The decimal digits of `n`, most significant first, without leading zeros. */
  function Digits(n: nat): string
    decreases n
  {
    if n < 10 then [DigitChar(n)] else Digits(n / 10) + [DigitChar(n % 10)]
  }

  /** The number a run of decimal digits denotes (0 for the empty run). */
  function DigitsValue(s: string): nat
    requires AllDigits(s)
  {
    if |s| == 0 then 0 else 10 * DigitsValue(s[..|s| - 1]) + DigitValue(s[|s| - 1])
  }

  /** `Long.toString(long)`: a minus sign exactly for negative numbers, then
      the digits of the magnitude. */
  function DecimalText(i: int): (r: string)
    ensures |r| > 0 && (r[0] == '-' <==> i < 0)
    ensures var digits := if i < 0 then r[1..] else r;
      |digits| > 0 && AllDigits(digits) && DigitsValue(digits) == if i < 0 then -i else i
  {
    DigitsRoundTrip(if i < 0 then -i else i);
    if i < 0 then "-" + Digits(-i) else Digits(i)
  }

  /** `Integer.valueOf(String)` (that is, `Integer.parseInt` with radix 10): an
      optional sign, at least one ASCII digit and nothing else, denoting a value
      in the `int` range; every other text raises NumberFormatException. */
  function ParseInt(s: string): (r: Result<Int32, Exception>)
    ensures r.Failure? ==> r.error == NumberFormat(s)
  {
    if |s| == 0 then Failure(NumberFormat(s))
    else
      var negative := s[0] == '-';
      var body := if s[0] == '-' || s[0] == '+' then s[1..] else s;
      if |body| == 0 || !AllDigits(body) then Failure(NumberFormat(s))
      else
        var magnitude: int := DigitsValue(body);
        var v := if negative then -magnitude else magnitude;
        if IntMin <= v <= IntMax then Success(v) else Failure(NumberFormat(s))
  }

  lemma {:induction false} DigitsRoundTrip(n: nat)
    ensures |Digits(n)| > 0 && AllDigits(Digits(n))
    ensures Digits(n)[0] != '-' && Digits(n)[0] != '+'
    ensures DigitsValue(Digits(n)) == n
    decreases n
  {
    if n >= 10 {
      DigitsRoundTrip(n / 10);
      var s := Digits(n);
      assert s == Digits(n / 10) + [DigitChar(n % 10)];
      assert s[..|s| - 1] == Digits(n / 10);
      assert AllDigits(s) by {
        forall k | 0 <= k < |s| ensures IsDigit(s[k]) {
          if k < |s| - 1 { assert s[k] == Digits(n / 10)[k]; }
        }
      }
    }
  }

  /** Parsing the decimal text of any integer gives that integer back exactly
      when it lies in the `int` range, and NumberFormatException otherwise. */
  lemma {:induction false} ParseIntOfDecimalText(i: int)
    ensures ParseInt(DecimalText(i)) ==
      if InIntRange(i) then Success(i) else Failure(NumberFormat(DecimalText(i)))
  {
    if i < 0 {
      DigitsRoundTrip(-i);
      assert DecimalText(i)[1..] == Digits(-i);
    } else {
      DigitsRoundTrip(i);
    }
  }
}
