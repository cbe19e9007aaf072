/**
 * Models of the Go library conversions that the client and the fake device rely on: fmt's %d and
 * %v verbs, strconv.Atoi and strconv.ParseBool, and encoding/json on a []bool.
 */
module GoText {
  import opened Results

  const MinInt64: int := -0x8000_0000_0000_0000
  const MaxInt64: int := 0x7fff_ffff_ffff_ffff
  const MaxUint64: int := 0xffff_ffff_ffff_ffff

  /** Go's `int` on a 64-bit platform. */
  newtype Int64 = x: int | -0x8000_0000_0000_0000 <= x <= 0x7fff_ffff_ffff_ffff

  /** The two reasons strconv gives for rejecting its input. */
  datatype NumErrorKind = ErrSyntax | ErrRange

  /** strconv.NumError: the function that failed, the input it was given, and why. */
  datatype NumError = NumError(funcName: string, num: string, err: NumErrorKind)

  /** The (value, error) pair a strconv parse function returns. */
  datatype Parsed<T> = Parsed(value: T, err: Option<NumError>)

  // ---------------------------------------------------------------- decimal numbers

  predicate IsDigit(c: char) { '0' <= c <= '9' }

  predicate AllDigits(s: string) { forall i :: 0 <= i < |s| ==> IsDigit(s[i]) }

  function DigitValue(c: char): (d: nat)
    requires IsDigit(c)
    ensures d < 10
  {
    c as int - '0' as int
  }

  function DigitChar(d: nat): (c: char)
    requires d < 10
    ensures IsDigit(c) && DigitValue(c) == d
  {
    ('0' as int + d) as char
  }

  /** The decimal digits of `n`, most significant first. */
  function NatDigits(n: nat): (r: string)
    ensures |r| > 0 && AllDigits(r)
    decreases n
  {
    if n < 10 then [DigitChar(n)] else NatDigits(n / 10) + [DigitChar(n % 10)]
  }

  /** fmt's %d verb: a minus sign for a negative number, then the digits of the magnitude. */
  function FormatInt(n: int): string
  {
    if n < 0 then "-" + NatDigits(-n) else NatDigits(n)
  }

  /** The number that a string of decimal digits denotes. */
  function DecimalValue(s: string): nat
    requires AllDigits(s)
  {
    if s == [] then 0 else DecimalValue(s[..|s| - 1]) * 10 + DigitValue(s[|s| - 1])
  }

  /** The longest prefix of `s` made of decimal digits. */
  function LeadingDigits(s: string): (p: string)
    ensures p <= s && AllDigits(p)
    ensures |p| < |s| ==> !IsDigit(s[|p|])
  {
    if s != [] && IsDigit(s[0]) then [s[0]] + LeadingDigits(s[1..]) else []
  }

  /** What follows an optional leading sign. */
  function Unsigned(s: string): string
  {
    if |s| > 0 && (s[0] == '-' || s[0] == '+') then s[1..] else s
  }

  /** The syntax strconv.Atoi accepts in base 10: an optional sign and at least one digit. */
  predicate IsDecimal(s: string)
  {
    Unsigned(s) != [] && AllDigits(Unsigned(s))
  }

  /** The integer a decimal string denotes, with no bound on its size. */
  function SignedValue(s: string): int
    requires IsDecimal(s)
  {
    if s[0] == '-' then -(DecimalValue(Unsigned(s)) as int) else DecimalValue(Unsigned(s))
  }

  /**
   * strconv.Atoi for a 64-bit int. Its fast path (inputs shorter than 19 bytes) and its slow path
   * through ParseInt agree, so one definition serves both. ParseUint stops at the first digit that
   * overflows uint64, so such an input is a range error even when a non-digit follows; a magnitude
   * beyond int64 is clamped to the nearest bound and reported as a range error.
   */
  function Atoi(s: string): Parsed<Int64>
  {
    var negative := |s| > 0 && s[0] == '-';
    var digits := Unsigned(s);
    var p := LeadingDigits(digits);
    if digits == [] then
      Parsed(0, Some(NumError("Atoi", s, ErrSyntax)))
    else if DecimalValue(p) > MaxUint64 then
      Parsed(if negative then MinInt64 as Int64 else MaxInt64 as Int64, Some(NumError("Atoi", s, ErrRange)))
    else if |p| < |digits| then
      Parsed(0, Some(NumError("Atoi", s, ErrSyntax)))
    else if !negative && DecimalValue(p) > MaxInt64 then
      Parsed(MaxInt64 as Int64, Some(NumError("Atoi", s, ErrRange)))
    else if negative && DecimalValue(p) > -MinInt64 then
      Parsed(MinInt64 as Int64, Some(NumError("Atoi", s, ErrRange)))
    else
      Parsed((if negative then -(DecimalValue(p) as int) else DecimalValue(p)) as Int64, None)
  }

  lemma {:induction false} LeadingDigitsOfDigits(s: string)
    requires AllDigits(s)
    ensures LeadingDigits(s) == s
  {
    if s != [] {
      LeadingDigitsOfDigits(s[1..]);
      assert [s[0]] + s[1..] == s;
    }
  }

  lemma {:induction false} DecimalValueOfNatDigits(n: nat)
    ensures DecimalValue(NatDigits(n)) == n
    decreases n
  {
    var s := NatDigits(n);
    if n < 10 {
      assert s[..|s| - 1] == [];
    } else {
      assert s[..|s| - 1] == NatDigits(n / 10);
      DecimalValueOfNatDigits(n / 10);
    }
  }

  /**
   * Atoi succeeds exactly on the decimal strings whose value fits in 64 bits, and then returns
   * that value.
   */
  lemma AtoiSucceedsExactlyOnInt64Decimals(s: string)
    ensures Atoi(s).err == None <==> IsDecimal(s) && MinInt64 <= SignedValue(s) <= MaxInt64
    ensures Atoi(s).err == None ==> Atoi(s).value as int == SignedValue(s)
  {
    var digits := Unsigned(s);
    var p := LeadingDigits(digits);
    if digits != [] && AllDigits(digits) {
      LeadingDigitsOfDigits(digits);
    }
  }

  /** Reading back what %d wrote gives the same number: Atoi inverts FormatInt on 64-bit ints. */
  lemma AtoiFormatInt(n: Int64)
    ensures Atoi(FormatInt(n as int)) == Parsed(n, None)
  {
    var s := FormatInt(n as int);
    var m := if n < 0 then -(n as int) else n as int;
    DecimalValueOfNatDigits(m);
    assert Unsigned(s) == NatDigits(m);
    assert IsDecimal(s) && SignedValue(s) == n as int;
    AtoiSucceedsExactlyOnInt64Decimals(s);
  }

  // ---------------------------------------------------------------- booleans

  /** fmt's %v verb on a bool. */
  function FormatBool(b: bool): string
  {
    if b then "true" else "false"
  }

  /** strconv.ParseBool: the six spellings of each truth value, and a syntax error otherwise. */
  function ParseBool(s: string): Parsed<bool>
  {
    if s in ["1", "t", "T", "TRUE", "true", "True"] then Parsed(true, None)
    else if s in ["0", "f", "F", "FALSE", "false", "False"] then Parsed(false, None)
    else Parsed(false, Some(NumError("ParseBool", s, ErrSyntax)))
  }

  /** ParseBool reads back what %v writes. */
  lemma ParseBoolFormatBool(b: bool)
    ensures ParseBool(FormatBool(b)) == Parsed(b, None)
  {
  }

  // ---------------------------------------------------------------- JSON arrays of booleans

  predicate IsJsonSpace(c: char) { c == ' ' || c == '\t' || c == '\n' || c == '\r' }

  /** Drops the JSON white space at the front of `s`. */
  function SkipSpace(s: string): (r: string)
    ensures |r| <= |s|
    ensures r == [] || !IsJsonSpace(r[0])
  {
    if s != [] && IsJsonSpace(s[0]) then SkipSpace(s[1..]) else s
  }

  /**
   * One array element decoded into a Go bool: true, false, or null, which leaves the fresh
   * element at its zero value false. Anything else is an error for a []bool.
   */
  function ParseElement(s: string): (r: Option<(bool, string)>)
    ensures r.Some? ==> |r.value.1| < |s|
  {
    if IsWord(s, "true") then Some((true, s[4..]))
    else if IsWord(s, "false") then Some((false, s[5..]))
    else if IsWord(s, "null") then Some((false, s[4..]))
    else None
  }

  /** `s` starts with `word`, compared character by character. */
  predicate IsWord(s: string, word: string)
  {
    |s| >= |word| && forall i | 0 <= i < |word| :: s[i] == word[i]
  }

  /** The elements of a non-empty array and its closing bracket, which must end the input. */
  function ParseElements(s: string): Option<seq<bool>>
    decreases |s|
  {
    match ParseElement(s)
    case None => None
    case Some((b, rest)) =>
      var r := SkipSpace(rest);
      if r != [] && r[0] == ',' then
        match ParseElements(SkipSpace(r[1..]))
        case None => None
        case Some(bs) => Some([b] + bs)
      else if r != [] && r[0] == ']' && SkipSpace(r[1..]) == [] then Some([b])
      else None
  }

  /**
   * encoding/json's Unmarshal into a []bool, as far as a caller can observe it: None when Go
   * reports an error (malformed JSON, or a JSON value that is neither null nor an array of
   * booleans), otherwise the decoded slice. The literal null decodes to the nil slice, here [].
   */
  function ParseBoolSlice(s: string): Option<seq<bool>>
  {
    var t := SkipSpace(s);
    if IsWord(t, "null") then
      if SkipSpace(t[4..]) == [] then Some([]) else None
    else if t != [] && t[0] == '[' then
      var u := SkipSpace(t[1..]);
      if u != [] && u[0] == ']' then
        if SkipSpace(u[1..]) == [] then Some([]) else None
      else ParseElements(u)
    else None
  }

  /** The elements of `bs` as %v writes them, separated by commas. */
  function JoinBools(bs: seq<bool>): (r: string)
    ensures bs != [] ==> r != [] && r[0] == FormatBool(bs[0])[0]
  {
    if bs == [] then ""
    else if |bs| == 1 then FormatBool(bs[0])
    else FormatBool(bs[0]) + "," + JoinBools(bs[1..])
  }

  /** encoding/json's Marshal of a non-nil []bool. */
  function EncodeBoolSlice(bs: seq<bool>): string
  {
    "[" + JoinBools(bs) + "]"
  }

  lemma ParseElementFormatBool(b: bool, rest: string)
    ensures ParseElement(FormatBool(b) + rest) == Some((b, rest))
  {
    var s := FormatBool(b) + rest;
    if b {
      assert IsWord(s, "true") && s[4..] == rest;
    } else {
      assert !IsWord(s, "true") by { assert s[0] == 'f'; }
      assert IsWord(s, "false") && s[5..] == rest;
    }
  }

  /** One step of ParseElements: an element followed by a comma, then the remaining elements. */
  lemma ParseElementsComma(b: bool, next: string)
    requires next == [] || !IsJsonSpace(next[0])
    ensures ParseElements(FormatBool(b) + "," + next) ==
      match ParseElements(next)
      case None => None
      case Some(bs) => Some([b] + bs)
  {
    var rest := "," + next;
    assert FormatBool(b) + "," + next == FormatBool(b) + rest;
    ParseElementFormatBool(b, rest);
    assert SkipSpace(rest) == rest;
    assert rest[1..] == next;
  }

  /** The last step of ParseElements: an element followed by the closing bracket. */
  lemma ParseElementsLast(b: bool)
    ensures ParseElements(FormatBool(b) + "]") == Some([b])
  {
    ParseElementFormatBool(b, "]");
    assert "]"[1..] == [];
  }

  /** An element and a comma in front of a decodable rest decode to one more element. */
  lemma ParseElementsCons(b: bool, next: string, rest: seq<bool>, encoded: string)
    requires encoded == FormatBool(b) + "," + next
    requires next == [] || !IsJsonSpace(next[0])
    requires ParseElements(next) == Some(rest)
    ensures ParseElements(encoded) == Some([b] + rest)
  {
    ParseElementsComma(b, next);
  }

  /** Past its first element and comma, an encoded array of two or more continues with the next element. */
  lemma JoinBoolsStep(bs: seq<bool>)
    requires |bs| >= 2
    ensures JoinBools(bs) + "]" == FormatBool(bs[0]) + "," + (JoinBools(bs[1..]) + "]")
    ensures !IsJsonSpace((JoinBools(bs[1..]) + "]")[0])
  {
    var head, tail := FormatBool(bs[0]), JoinBools(bs[1..]);
    assert JoinBools(bs) == head + "," + tail;
    AppendAssociates(head + ",", tail, "]");
  }

  lemma AppendAssociates(a: string, b: string, c: string)
    ensures (a + b) + c == a + (b + c)
  {
  }

  lemma {:induction false} ParseElementsJoinBools(bs: seq<bool>)
    requires bs != []
    ensures ParseElements(JoinBools(bs) + "]") == Some(bs)
  {
    if |bs| == 1 {
      ParseElementsLast(bs[0]);
      assert bs == [bs[0]];
    } else {
      JoinBoolsStep(bs);
      ParseElementsJoinBools(bs[1..]);
      ParseElementsCons(bs[0], JoinBools(bs[1..]) + "]", bs[1..], JoinBools(bs) + "]");
      assert [bs[0]] + bs[1..] == bs;
    }
  }

  /** An input that opens an array with no white space before or after the bracket. */
  lemma ParseBoolSliceOfArray(u: string)
    requires u == [] || !IsJsonSpace(u[0])
    ensures ParseBoolSlice("[" + u) ==
      if u != [] && u[0] == ']' then (if SkipSpace(u[1..]) == [] then Some([]) else None)
      else ParseElements(u)
  {
    var s := "[" + u;
    assert s[0] == '[' && s[1..] == u;
    assert SkipSpace(s) == s;
    assert !IsWord(s, "null") by { assert s[0] == '['; }
  }

  /** Unmarshal reads back what Marshal writes: decoding an encoded []bool gives the same slice. */
  lemma ParseBoolSliceRoundTrip(bs: seq<bool>)
    ensures ParseBoolSlice(EncodeBoolSlice(bs)) == Some(bs)
  {
    var u := JoinBools(bs) + "]";
    assert EncodeBoolSlice(bs) == "[" + u;
    if bs == [] {
      assert u == "]";
      ParseBoolSliceOfArray(u);
      assert u[1..] == [];
    } else {
      assert u[0] == FormatBool(bs[0])[0];
      ParseBoolSliceOfArray(u);
      ParseElementsJoinBools(bs);
    }
  }
}
