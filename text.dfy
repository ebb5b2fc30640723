/** Models of the Go standard-library string and number helpers the agent
    relies on (strings.Fields, strings.Split, strings.Trim, strings.ToLower,
    strconv.ParseInt, strconv.Atoi, fmt's %d, bufio.ScanLines), and of the two
    repository helpers stripChars and sliceIndex. Their Go bodies are not part
    of this model: each is given the contract the agent's code assumes of it,
    with a body that meets that contract, and no proof uses more than the
    contract.
    Strings are sequences of Unicode code points. */
module Text {

  const UINT64_MAX: int := 0xFFFF_FFFF_FFFF_FFFF
  const INT64_MIN: int := -0x8000_0000_0000_0000
  const INT64_MAX: int := 0x7FFF_FFFF_FFFF_FFFF

  type uint64 = x: int | 0 <= x <= 0xFFFF_FFFF_FFFF_FFFF
  type int64 = x: int | -0x8000_0000_0000_0000 <= x <= 0x7FFF_FFFF_FFFF_FFFF

  datatype Option<T> = None | Some(value: T)

  // ---------------------------------------------------------------------------
  // Fixed-width integer arithmetic

  /** Go's `+=` on uint64: addition modulo 2^64. */
  function AddUint64(a: uint64, b: uint64): (r: uint64)
    ensures a + b <= UINT64_MAX ==> r == a + b
    ensures a + b > UINT64_MAX ==> r == a + b - (UINT64_MAX + 1)
  {
    (a + b) % (UINT64_MAX + 1)
  }

  /** The int64 that Go's two's-complement arithmetic yields for the exact value x. */
  function WrapInt64(x: int): (r: int64)
  {
    (x - INT64_MIN) % (UINT64_MAX + 1) + INT64_MIN
  }

  /** Go's int64 +, which wraps around on overflow. */
  function AddInt64(a: int64, b: int64): int64
  {
    if a + b > INT64_MAX then a + b - (UINT64_MAX + 1)
    else if a + b < INT64_MIN then a + b + (UINT64_MAX + 1)
    else a + b
  }

  /** Adding with wrap-around step by step gives the wrap of the exact sum. */
  lemma AddInt64Wraps(a: int, b: int64)
    ensures AddInt64(WrapInt64(a), b) == WrapInt64(a + b)
  {
    WrapInt64Add(a, b);
    var x := WrapInt64(a) + b;
    if x > INT64_MAX {
      ModShift(x - INT64_MIN, 1);
    } else if x < INT64_MIN {
      ModShift(x - INT64_MIN, -1);
    } else {
      WrapInt64Exact(x);
    }
  }

  lemma WrapInt64Exact(x: int)
    ensures INT64_MIN <= x <= INT64_MAX ==> WrapInt64(x) == x
    ensures (x - WrapInt64(x)) % (UINT64_MAX + 1) == 0
  {
  }

  /** Accumulating with wrap-around step by step gives the wrap of the exact sum. */
  lemma WrapInt64Add(a: int, b: int)
    ensures WrapInt64(WrapInt64(a) + b) == WrapInt64(a + b)
  {
    var k := (a - INT64_MIN) / 0x1_0000_0000_0000_0000;
    assert WrapInt64(a) == a - k * 0x1_0000_0000_0000_0000;
    ModShift(a + b - INT64_MIN, k);
  }

  lemma ModShift(x: int, k: int)
    ensures (x - k * 0x1_0000_0000_0000_0000) % 0x1_0000_0000_0000_0000 == x % 0x1_0000_0000_0000_0000
  {
  }

  // ---------------------------------------------------------------------------
  // strings.Fields

  /** unicode.IsSpace, which strings.Fields uses to separate fields. */
  predicate IsSpace(c: char)
  {
    c == '\t' || c == '\n' || c == '\U{B}' || c == '\U{C}' || c == '\r' || c == ' '
    || c == '\U{85}' || c == '\U{A0}' || c == '\U{1680}'
    || ('\U{2000}' <= c <= '\U{200A}')
    || c == '\U{2028}' || c == '\U{2029}' || c == '\U{202F}' || c == '\U{205F}' || c == '\U{3000}'
  }

  predicate NoSpace(s: string)
  {
    forall i | 0 <= i < |s| :: !IsSpace(s[i])
  }

  /** The longest prefix of s that holds no white space. */
  function Word(s: string): (w: string)
    ensures |w| <= |s| && w == s[..|w|]
    ensures NoSpace(w)
    ensures |w| < |s| ==> IsSpace(s[|w|])
  {
    if s == [] || IsSpace(s[0]) then [] else [s[0]] + Word(s[1..])
  }

  /** strings.Fields: the maximal runs of non-space characters, in order. */
  function Fields(s: string): (r: seq<string>)
    ensures forall f <- r :: f != [] && NoSpace(f)
    decreases |s|
  {
    if s == [] then []
    else if IsSpace(s[0]) then Fields(s[1..])
    else
      var w := Word(s);
      [w] + Fields(s[|w|..])
  }

  /** Words separated by single blanks: the shape of an accounting-file line. */
  function JoinSpace(words: seq<string>): string
  {
    if |words| == 0 then []
    else if |words| == 1 then words[0]
    else words[0] + " " + JoinSpace(words[1..])
  }

  lemma {:induction false} WordOfPrefix(w: string, t: string)
    requires NoSpace(w)
    requires t == [] || IsSpace(t[0])
    ensures Word(w + t) == w
  {
    if w != [] {
      assert (w + t)[1..] == w[1..] + t;
      WordOfPrefix(w[1..], t);
    } else {
      assert w + t == t;
    }
  }

  lemma {:induction false} FieldsOfSpaced(s: string)
    requires s != [] && IsSpace(s[0])
    ensures Fields(s) == Fields(s[1..])
  {
  }

  /** A leading word followed by white space is the first field. */
  lemma FieldsOfWordThen(w: string, t: string)
    requires w != [] && NoSpace(w)
    requires t == [] || IsSpace(t[0])
    ensures Fields(w + t) == [w] + Fields(t)
  {
    WordOfPrefix(w, t);
    assert (w + t)[|w|..] == t;
  }

  /** Splitting blank-separated words with strings.Fields gives the words back. */
  lemma {:induction false} FieldsOfJoinSpace(words: seq<string>)
    requires forall w <- words :: w != [] && NoSpace(w)
    ensures Fields(JoinSpace(words)) == words
  {
    if |words| == 1 {
      assert words[0] in words;
      FieldsOfWordThen(words[0], []);
      assert words[0] + [] == words[0];
    } else if |words| > 1 {
      var rest := JoinSpace(words[1..]);
      assert words[0] in words;
      assert JoinSpace(words) == words[0] + (" " + rest);
      FieldsOfWordThen(words[0], " " + rest);
      FieldsOfSpaced(" " + rest);
      assert (" " + rest)[1..] == rest;
      assert forall v <- words[1..] :: v in words;
      FieldsOfJoinSpace(words[1..]);
    }
  }

  /** White space alone holds no field. */
  lemma {:induction false} FieldsOfBlank(t: string)
    requires forall i | 0 <= i < |t| :: IsSpace(t[i])
    ensures Fields(t) == []
    decreases |t|
  {
    if t != [] {
      FieldsOfBlank(t[1..]);
    }
  }

  /** White space after blank-separated words adds no field. */
  lemma {:induction false} FieldsOfJoinSpaceThen(words: seq<string>, t: string)
    requires forall w <- words :: w != [] && NoSpace(w)
    requires forall i | 0 <= i < |t| :: IsSpace(t[i])
    ensures Fields(JoinSpace(words) + t) == words
    decreases |words|
  {
    FieldsOfBlank(t);
    if |words| == 0 {
      assert JoinSpace(words) + t == t;
    } else if |words| == 1 {
      assert words[0] in words;
      FieldsOfWordThen(words[0], t);
    } else {
      assert words[0] in words;
      assert forall v <- words[1..] :: v in words;
      var rest := JoinSpace(words[1..]) + t;
      assert JoinSpace(words) + t == words[0] + (" " + rest);
      FieldsOfWordThen(words[0], " " + rest);
      FieldsOfSpaced(" " + rest);
      assert (" " + rest)[1..] == rest;
      FieldsOfJoinSpaceThen(words[1..], t);
    }
  }

  // ---------------------------------------------------------------------------
  // strings.Split, strings.Trim, bufio.ScanLines

  /** strings.Split with a one-character separator: the pieces between separators. */
  function Split(s: string, sep: char): (r: seq<string>)
    ensures |r| >= 1
    ensures forall p <- r :: sep !in p
    decreases |s|
  {
    if s == [] then [[]]
    else
      var rest := Split(s[1..], sep);
      if s[0] == sep then [[]] + rest else [[s[0]] + rest[0]] + rest[1..]
  }

  /** strings.Join with a one-character separator. */
  function Join(pieces: seq<string>, sep: char): string
  {
    if |pieces| == 0 then []
    else if |pieces| == 1 then pieces[0]
    else pieces[0] + [sep] + Join(pieces[1..], sep)
  }

  /** Joining the pieces of a split restores the original string. */
  lemma {:induction false} JoinSplit(s: string, sep: char)
    ensures Join(Split(s, sep), sep) == s
  {
    if s != [] {
      var rest := Split(s[1..], sep);
      JoinSplit(s[1..], sep);
      if s[0] == sep {
        assert Split(s, sep) == [[]] + rest;
        assert ([[]] + rest)[1..] == rest;
      } else {
        var r := Split(s, sep);
        assert r == [[s[0]] + rest[0]] + rest[1..];
        if |rest| > 1 {
          assert r[1..] == rest[1..];
          assert Join(rest, sep) == rest[0] + [sep] + Join(rest[1..], sep);
        }
      }
    }
  }

  /** The first piece of a split ends at the first separator. */
  lemma {:induction false} SplitAtFirst(a: string, b: string, sep: char)
    requires sep !in a
    ensures Split(a + [sep] + b, sep) == [a] + Split(b, sep)
  {
    if a == [] {
      assert a + [sep] + b == [sep] + b;
      assert ([sep] + b)[1..] == b;
    } else {
      assert (a + [sep] + b)[1..] == a[1..] + [sep] + b;
      SplitAtFirst(a[1..], b, sep);
      assert [a[0]] + a[1..] == a;
    }
  }

  /** Lines each followed by a newline: the layout of a text file. */
  function Terminated(lines: seq<string>): string
  {
    if lines == [] then [] else lines[0] + ['\n'] + Terminated(lines[1..])
  }

  /** A text file of newline-terminated lines splits into its lines and one empty tail piece. */
  lemma {:induction false} SplitTerminated(lines: seq<string>)
    requires forall l <- lines :: '\n' !in l
    ensures Split(Terminated(lines), '\n') == lines + [[]]
  {
    if lines != [] {
      SplitAtFirst(lines[0], Terminated(lines[1..]), '\n');
      SplitTerminated(lines[1..]);
      assert lines == [lines[0]] + lines[1..];
    }
  }

  function TrimLeft(s: string, c: char): (r: string)
    ensures |r| <= |s| && r == s[|s| - |r|..]
    ensures forall i | 0 <= i < |s| - |r| :: s[i] == c
    ensures r == [] || r[0] != c
  {
    if s != [] && s[0] == c then TrimLeft(s[1..], c) else s
  }

  function TrimRight(s: string, c: char): (r: string)
    ensures |r| <= |s| && r == s[..|r|]
    ensures forall i | |r| <= i < |s| :: s[i] == c
    ensures r == [] || r[|r| - 1] != c
  {
    if s != [] && s[|s| - 1] == c then TrimRight(s[..|s| - 1], c) else s
  }

  /** strings.Trim with a one-character cut set. */
  function Trim(s: string, c: char): string
  {
    TrimRight(TrimLeft(s, c), c)
  }

  /** Trimming newlines from a one-line file gives its line. */
  lemma TrimTrailingNewline(s: string)
    requires s != [] && s[0] != '\n' && s[|s| - 1] != '\n'
    ensures Trim(s + "\n", '\n') == s
  {
    assert (s + "\n")[..|s|] == s;
  }

  /** bufio.ScanLines drops one trailing carriage return from each line. */
  function DropCR(line: string): string
  {
    if line != [] && line[|line| - 1] == '\r' then line[..|line| - 1] else line
  }

  /** The tokens bufio.Scanner yields with bufio.ScanLines: the newline-separated
      pieces, without an empty final piece, each with a trailing '\r' removed. */
  function ScanLines(data: string): seq<string>
  {
    var pieces := Split(data, '\n');
    var tokens := if pieces[|pieces| - 1] == [] then pieces[..|pieces| - 1] else pieces;
    seq(|tokens|, i requires 0 <= i < |tokens| => DropCR(tokens[i]))
  }

  /** Scanning a file of newline-terminated lines yields those lines. */
  lemma ScanLinesTerminated(lines: seq<string>)
    requires forall l <- lines :: '\n' !in l && (l == [] || l[|l| - 1] != '\r')
    ensures ScanLines(Terminated(lines)) == lines
  {
    SplitTerminated(lines);
    assert (lines + [[]])[..|lines|] == lines;
    assert forall i | 0 <= i < |lines| :: DropCR(lines[i]) == lines[i];
  }

  // ---------------------------------------------------------------------------
  // strings.ToLower

  function LowerChar(c: char): char
  {
    if 'A' <= c <= 'Z' then (c as int + 32) as char else c
  }

  /** strings.ToLower, on ASCII letters. */
  function ToLower(s: string): (r: string)
    ensures |r| == |s|
    ensures forall i | 0 <= i < |s| :: r[i] == LowerChar(s[i])
  {
    seq(|s|, i requires 0 <= i < |s| => LowerChar(s[i]))
  }

  // ---------------------------------------------------------------------------
  // strconv.ParseInt / strconv.Atoi, and %d formatting

  predicate IsDigit(c: char)
  {
    '0' <= c <= '9'
  }

  function DigitOf(c: char): nat
    requires IsDigit(c)
  {
    c as int - '0' as int
  }

  function DigitChar(d: nat): (c: char)
    requires d < 10
    ensures IsDigit(c) && DigitOf(c) == d
  {
    ('0' as int + d) as char
  }

  datatype NumError = ErrSyntax | ErrRange

  /** A parsed number and the error strconv reports beside it. */
  datatype Parsed = Parsed(value: int, err: Option<NumError>)

  /** The digit loop of strconv.ParseUint(s, 10, 64): digits are taken left to
      right; the first non-digit is a syntax error with value 0, and the first
      prefix whose value exceeds the uint64 range is a range error with the
      largest uint64 as value, whichever comes first. */
  function ScanUint64(s: string, acc: uint64): (r: Parsed)
    ensures 0 <= r.value <= UINT64_MAX
    ensures r.err == Some(ErrSyntax) ==> r.value == 0
    ensures r.err == Some(ErrRange) ==> r.value == UINT64_MAX
    decreases |s|
  {
    if s == [] then Parsed(acc, None)
    else if !IsDigit(s[0]) then Parsed(0, Some(ErrSyntax))
    else
      var next := acc * 10 + DigitOf(s[0]);
      if next > UINT64_MAX then Parsed(UINT64_MAX, Some(ErrRange))
      else ScanUint64(s[1..], next)
  }

  /** strconv.ParseInt(s, 10, 64): an optional sign, then strconv.ParseUint's
      digits; out-of-range magnitudes are clamped to the int64 bounds with a
      range error, and a syntax error yields 0. */
  function ParseInt64(s: string): (r: Parsed)
    ensures INT64_MIN <= r.value <= INT64_MAX
    ensures r.err == Some(ErrSyntax) ==> r.value == 0
  {
    if s == [] then Parsed(0, Some(ErrSyntax))
    else
      var neg := s[0] == '-';
      var body := if s[0] == '+' || s[0] == '-' then s[1..] else s;
      var u := if body == [] then Parsed(0, Some(ErrSyntax)) else ScanUint64(body, 0);
      if u.err == Some(ErrSyntax) then Parsed(0, Some(ErrSyntax))
      else if !neg && u.value > INT64_MAX then Parsed(INT64_MAX, Some(ErrRange))
      else if neg && u.value > -INT64_MIN then Parsed(INT64_MIN, Some(ErrRange))
      else Parsed(if neg then -u.value else u.value, None)
  }

  /** strconv.Atoi on a 64-bit platform: the value of strconv.ParseInt(s, 10, 64),
      with the error discarded as the agent does. */
  function Atoi(s: string): (n: int64)
    ensures ParseInt64(s).err == Some(ErrSyntax) ==> n == 0
  {
    ParseInt64(s).value
  }

  /** Decimal form of a natural number, as fmt's %d prints it. */
  function NatToString(n: nat): (s: string)
    ensures |s| >= 1 && forall i | 0 <= i < |s| :: IsDigit(s[i])
    decreases n
  {
    if n < 10 then [DigitChar(n)] else NatToString(n / 10) + [DigitChar(n % 10)]
  }

  /** strconv.FormatInt(x, 10), as fmt's %d prints an integer. */
  function FormatInt(x: int): string
  {
    if x < 0 then "-" + NatToString(-x) else NatToString(x)
  }

  /** The value of a digit string read left to right from the accumulator acc. */
  function DigitsValue(acc: nat, s: string): nat
    requires forall i | 0 <= i < |s| :: IsDigit(s[i])
    decreases |s|
  {
    if s == [] then acc else DigitsValue(acc * 10 + DigitOf(s[0]), s[1..])
  }

  lemma {:induction false} DigitsValueAtLeast(acc: nat, s: string)
    requires forall i | 0 <= i < |s| :: IsDigit(s[i])
    ensures DigitsValue(acc, s) >= acc
    decreases |s|
  {
    if s != [] {
      DigitsValueAtLeast(acc * 10 + DigitOf(s[0]), s[1..]);
    }
  }

  lemma {:induction false} DigitsValueSnoc(acc: nat, s: string, c: char)
    requires forall i | 0 <= i < |s| :: IsDigit(s[i])
    requires IsDigit(c)
    ensures DigitsValue(acc, s + [c]) == DigitsValue(acc, s) * 10 + DigitOf(c)
    decreases |s|
  {
    if s != [] {
      assert (s + [c])[1..] == s[1..] + [c];
      DigitsValueSnoc(acc * 10 + DigitOf(s[0]), s[1..], c);
    } else {
      assert (s + [c])[1..] == [];
    }
  }

  lemma {:induction false} DigitsValueOfNat(n: nat)
    ensures DigitsValue(0, NatToString(n)) == n
    decreases n
  {
    if n >= 10 {
      DigitsValueOfNat(n / 10);
      DigitsValueSnoc(0, NatToString(n / 10), DigitChar(n % 10));
    }
  }

  /** On a digit string whose value fits, the ParseUint loop computes that value. */
  lemma {:induction false} ScanUint64Digits(s: string, acc: uint64)
    requires forall i | 0 <= i < |s| :: IsDigit(s[i])
    requires DigitsValue(acc, s) <= UINT64_MAX
    ensures ScanUint64(s, acc) == Parsed(DigitsValue(acc, s), None)
    decreases |s|
  {
    if s != [] {
      var next := acc * 10 + DigitOf(s[0]);
      DigitsValueAtLeast(next, s[1..]);
      ScanUint64Digits(s[1..], next);
    }
  }

  /** Distinct numbers print differently under %d. */
  lemma NatToStringInjective(a: nat, b: nat)
    requires NatToString(a) == NatToString(b)
    ensures a == b
  {
    DigitsValueOfNat(a);
    DigitsValueOfNat(b);
  }

  /** A formatted integer is a single non-empty word. */
  lemma FormatIntIsWord(x: int)
    ensures FormatInt(x) != [] && NoSpace(FormatInt(x))
  {
  }

  /** strconv.ParseInt reads back every int64 that %d prints, without error. */
  lemma ParseFormatInt64(x: int64)
    ensures ParseInt64(FormatInt(x)) == Parsed(x, None)
  {
    var magnitude: nat := if x < 0 then -(x as int) else x;
    var digits := NatToString(magnitude);
    DigitsValueOfNat(magnitude);
    ScanUint64Digits(digits, 0);
    if x < 0 {
      assert ("-" + digits)[1..] == digits;
    }
  }

  // ---------------------------------------------------------------------------
  // Repository helpers: the assumed contracts, each with a body that meets it

  /** stripChars(str, chr): str with every character that occurs in chr removed. */
  function StripChars(s: string, chars: string): (r: string)
    ensures |r| <= |s|
    ensures forall i | 0 <= i < |r| :: r[i] !in chars
    ensures (forall i | 0 <= i < |s| :: s[i] !in chars) ==> r == s
  {
    if s == [] then []
    else (if s[0] in chars then [] else [s[0]]) + StripChars(s[1..], chars)
  }

  /** sliceIndex(slice, value): the first index holding value, or -1 when none does. */
  function SliceIndex(slice: seq<string>, value: string): (r: int)
    ensures -1 <= r < |slice|
    ensures r >= 0 ==> slice[r] == value && forall j | 0 <= j < r :: slice[j] != value
    ensures r == -1 <==> value !in slice
  {
    if slice == [] then -1
    else if slice[0] == value then 0
    else
      var k := SliceIndex(slice[1..], value);
      if k == -1 then -1 else k + 1
  }
}
