/** The last-value readers Start sets up when caching is on: one for the
    latest block number and one for the suggested gas price. A background
    updater writes the decimal text of the value under a fixed cache key; the
    read function turns that text back into a uint64 with
    strconv.ParseUint(value, 10, 64). */
module LastValue {
  import opened Outcomes
  import opened GoInt

  const BLOCK_NUMBER_KEY: string := "lvc:block_number"
  const GAS_PRICE_KEY: string := "lvc:gas_price"

  // ---------------------------------------------------------------------
  // Decimal text

  predicate IsDigit(ch: char)
  {
    '0' <= ch <= '9'
  }

  function DigitValue(ch: char): nat
    requires IsDigit(ch)
  {
    ch as int - '0' as int
  }

  function DigitChar(d: nat): (ch: char)
    requires d < 10
    ensures IsDigit(ch) && DigitValue(ch) == d
  {
    ('0' as int + d) as char
  }

  predicate AllDigits(s: string)
  {
    forall i | 0 <= i < |s| :: IsDigit(s[i])
  }

  /** The number a string of digits spells, read left to right. */
  function Decimal(s: string): nat
    requires AllDigits(s)
  {
    if s == [] then 0 else Decimal(s[..|s| - 1]) * 10 + DigitValue(s[|s| - 1])
  }

  /** The digit string has no leading zero, unless it is "0" itself. */
  predicate Canonical(s: string)
  {
    |s| > 0 && AllDigits(s) && (s[0] == '0' ==> |s| == 1)
  }

  /** strconv.FormatUint(n, 10), and the digits of big.Int's String for a
      non-negative value: the shortest decimal text of `n`. */
  function FormatDecimal(n: nat): (s: string)
    ensures Canonical(s) && Decimal(s) == n
  {
    if n < 10 then [DigitChar(n)]
    else
      var prefix := FormatDecimal(n / 10);
      var s := prefix + [DigitChar(n % 10)];
      assert s[..|s| - 1] == prefix;
      s
  }

  /** big.Int's String: a minus sign before the digits of a negative value. */
  function BigIntString(x: int): (s: string)
    ensures x >= 0 ==> Canonical(s) && Decimal(s) == x
    ensures x < 0 ==> |s| > 1 && s[0] == '-' && Canonical(s[1..]) && Decimal(s[1..]) == -x
  {
    var digits := FormatDecimal(if x < 0 then -x else x);
    if x < 0 then
      assert ("-" + digits)[1..] == digits;
      "-" + digits
    else digits
  }

  // ---------------------------------------------------------------------
  // strconv.ParseUint(s, 10, 64)

  /** Where the left-to-right scan of ParseUint stands: the value so far, or
      the first failure it met. */
  datatype Scan = Value(n: nat) | BadSyntax | TooLarge

  /** One step of the scan. A character that is not a digit is a syntax
      error; a digit that takes the value past 2^64 - 1 is a range error
      (the source tests this with a cutoff and an overflow check, which
      together say exactly this). */
  function ScanStep(n: nat, ch: char): Scan
  {
    if !IsDigit(ch) then BadSyntax
    else if n * 10 + DigitValue(ch) > MAX_UINT64 then TooLarge
    else Value(n * 10 + DigitValue(ch))
  }

  /** The scan of the whole string; the first failure stops it. */
  function ScanDigits(s: string): Scan
  {
    if s == [] then Value(0)
    else match ScanDigits(s[..|s| - 1])
      case Value(n) => ScanStep(n, s[|s| - 1])
      case failure => failure
  }

  /** strconv.ParseUint(s, 10, 64): no sign, no prefix, no underscores; the
      empty string and any non-digit met before an overflow are syntax
      errors, an overflow is a range error. */
  function ParseUint10(s: string): (r: Result<uint64>)
    ensures r.Ok? <==> s != [] && AllDigits(s) && Decimal(s) <= MAX_UINT64
    ensures r.Ok? ==> r.value == Decimal(s)
    ensures r.Err? ==> r.error == Malformed(s) || r.error == OutOfRange(s)
    ensures s != [] && AllDigits(s) && r.Err? ==> r.error == OutOfRange(s)
    ensures !AllDigits(s) && |s| <= 20 ==> r == Err(Malformed(s))
  {
    ScanAccepts(s);
    OverflowNeedsDigits(s);
    if s == [] then Err(Malformed(s))
    else match ScanDigits(s)
      case Value(n) => Ok(n)
      case BadSyntax => Err(Malformed(s))
      case TooLarge => Err(OutOfRange(s))
  }

  /** The scan finishes with a value exactly when the string is all digits
      and spells at most 2^64 - 1, and that value is the one it spells. */
  lemma {:induction false} ScanAccepts(s: string)
    ensures ScanDigits(s).Value? <==> AllDigits(s) && Decimal(s) <= MAX_UINT64
    ensures ScanDigits(s).Value? ==> ScanDigits(s).n == Decimal(s)
    ensures AllDigits(s) ==> !ScanDigits(s).BadSyntax?
  {
    if s != [] {
      var p := s[..|s| - 1];
      ScanAccepts(p);
      assert AllDigits(s) ==> AllDigits(p);
    }
  }

  /** Nineteen digits or fewer spell less than 10^19, which is below 2^64:
      the scan of such a string never overflows. */
  lemma {:induction false} ShortScanFits(s: string)
    requires |s| <= 19
    ensures !ScanDigits(s).TooLarge?
    ensures ScanDigits(s).Value? ==> ScanDigits(s).n < Pow10(|s|)
  {
    if s != [] {
      ShortScanFits(s[..|s| - 1]);
      Pow10Bound(|s|);
    }
  }

  /** A string of at most twenty characters overflows only if it is all
      digits: a non-digit within them is met before the value can get too
      large. */
  lemma {:induction false} OverflowNeedsDigits(s: string)
    ensures |s| <= 20 && ScanDigits(s).TooLarge? ==> AllDigits(s)
  {
    if s != [] && |s| <= 20 {
      var p := s[..|s| - 1];
      ShortScanFits(p);
      ScanAccepts(p);
      assert forall i | 0 <= i < |p| :: p[i] == s[i];
    }
  }

  function Pow10(k: nat): nat
  {
    if k == 0 then 1 else 10 * Pow10(k - 1)
  }

  lemma {:induction false} Pow10Bound(k: nat)
    requires k <= 19
    ensures Pow10(k) <= 10_000_000_000_000_000_000
    decreases 19 - k
  {
    if k < 19 {
      Pow10Bound(k + 1);
    } else {
      assert Pow10(10) == 10_000_000_000;
      assert Pow10(15) == 1_000_000_000_000_000;
    }
  }

  /** Once a non-digit starts the string the scan can only fail with a
      syntax error, however long the string is. */
  lemma {:induction false} LeadingNonDigit(s: string)
    requires |s| > 0 && !IsDigit(s[0])
    ensures ScanDigits(s) == BadSyntax
  {
    if |s| > 1 {
      LeadingNonDigit(s[..|s| - 1]);
    }
  }

  /** A digit string with no leading zero spells a positive number. */
  lemma {:induction false} LeadingDigitPositive(s: string)
    requires |s| > 0 && AllDigits(s) && s[0] != '0'
    ensures Decimal(s) > 0
  {
    if |s| > 1 {
      LeadingDigitPositive(s[..|s| - 1]);
    }
  }

  /** FormatDecimal is the inverse of Decimal on canonical digit strings. */
  lemma {:induction false} CanonicalRoundTrip(s: string)
    requires Canonical(s)
    ensures FormatDecimal(Decimal(s)) == s
  {
    if |s| > 1 {
      var p := s[..|s| - 1];
      var last := s[|s| - 1];
      assert Canonical(p) by {
        assert p[0] == s[0];
        assert forall i | 0 <= i < |p| :: p[i] == s[i];
      }
      LeadingDigitPositive(p);
      CanonicalRoundTrip(p);
      SplitLastDigit(Decimal(p), DigitValue(last));
      assert DigitChar(DigitValue(last)) == last;
      assert s == p + [last];
    }
  }

  lemma SplitLastDigit(q: nat, d: nat)
    requires d < 10
    ensures (q * 10 + d) / 10 == q && (q * 10 + d) % 10 == d
  {
  }

  /** Formatting and then parsing gives the number back when it fits in a
      uint64, and a range error when it does not. */
  lemma FormatThenParse(n: nat)
    ensures n <= MAX_UINT64 ==> ParseUint10(FormatDecimal(n)) == Ok(n)
    ensures n > MAX_UINT64 ==> ParseUint10(FormatDecimal(n)) == Err(OutOfRange(FormatDecimal(n)))
  {
  }

  // ---------------------------------------------------------------------
  // The updaters and the read function

  /** What an updater hands the last-value cache: the text to store and the
      error of the node call. */
  datatype Update = Update(value: string, err: Option<Error>)

  /** The block-number updater: the decimal text of the number the client
      returned, together with the client's error, even when there is one. */
  function BlockNumberUpdate(blockNum: uint64, err: Option<Error>): (u: Update)
    ensures Canonical(u.value) && Decimal(u.value) == blockNum
    ensures u.err == err
  {
    Update(FormatDecimal(blockNum), err)
  }

  /** The gas-price updater: on an error of the client, the empty text and
      that error; otherwise the big.Int's decimal text and no error. */
  function GasPriceUpdate(gasPrice: int, err: Option<Error>): (u: Update)
    ensures err.Some? ==> u.value == "" && u.err == err
    ensures err.None? && gasPrice >= 0 ==> Canonical(u.value) && Decimal(u.value) == gasPrice && u.err.None?
    ensures err.None? && gasPrice < 0 ==>
      |u.value| > 1 && u.value[0] == '-' && Canonical(u.value[1..]) && Decimal(u.value[1..]) == -gasPrice && u.err.None?
  {
    match err
    case Some(_) => Update("", err)
    case None =>
      var s := BigIntString(gasPrice);
      assert gasPrice < 0 ==> s[1..] == FormatDecimal(-gasPrice);
      Update(s, None)
  }

  /** The function makeUint64LastValueFn returns: the cache read's error is
      passed on, an empty value means the key is unavailable, and any other
      value must be the decimal text of a uint64. `read` is the outcome of
      reading the cache. */
  function ReadUint64(key: string, read: Result<string>): (r: Result<uint64>)
    ensures r.Ok? <==> read.Ok? && read.value != "" && AllDigits(read.value) && Decimal(read.value) <= MAX_UINT64
    ensures r.Ok? ==> r.value == Decimal(read.value)
    ensures read.Err? ==> r == Err(read.error)
    ensures read == Ok("") ==> r == Err(Unavailable(key))
    ensures read.Ok? && read.value != "" && r.Err? ==>
      r.error == Malformed(read.value) || r.error == OutOfRange(read.value)
  {
    match read
    case Err(e) => Err(e)
    case Ok(value) =>
      if value == "" then Err(Unavailable(key))
      else ParseUint10(value)
  }

  /** The text the block-number updater produces reads back as that number. */
  lemma BlockNumberRoundTrip(blockNum: uint64, err: Option<Error>)
    ensures ReadUint64(BLOCK_NUMBER_KEY, Ok(BlockNumberUpdate(blockNum, err).value)) == Ok(blockNum)
  {
    FormatThenParse(blockNum);
  }

  /** The text the gas-price updater produces without an error reads back as
      the price when it fits in a uint64; a larger price reads as a range error
      and a negative one as a syntax error. */
  lemma GasPriceRoundTrip(gasPrice: int)
    ensures 0 <= gasPrice <= MAX_UINT64 ==>
      ReadUint64(GAS_PRICE_KEY, Ok(GasPriceUpdate(gasPrice, None).value)) == Ok(gasPrice)
    ensures gasPrice > MAX_UINT64 ==>
      ReadUint64(GAS_PRICE_KEY, Ok(GasPriceUpdate(gasPrice, None).value)) == Err(OutOfRange(FormatDecimal(gasPrice)))
    ensures gasPrice < 0 ==>
      ReadUint64(GAS_PRICE_KEY, Ok(GasPriceUpdate(gasPrice, None).value)) == Err(Malformed(BigIntString(gasPrice)))
  {
    if gasPrice >= 0 {
      FormatThenParse(gasPrice);
    } else {
      LeadingNonDigit(BigIntString(gasPrice));
      ScanAccepts(BigIntString(gasPrice));
    }
  }
}
