/**
 * The pieces of Go's `strings` and `strconv` packages that the exporter uses
 * to read its logs: substring search, splitting on a separator, splitting on
 * white space, trimming, and decimal parsing with `strconv.Atoi`.
 * Strings are sequences of Unicode code points.
 */
module GoStrings {

  // ---------------------------------------------------------------------
  // strings.Contains
  // ---------------------------------------------------------------------

  /** `sub` occurs in `s` starting at offset `i`. */
  predicate OccursAt(s: string, sub: string, i: nat)
  {
    i + |sub| <= |s| && s[i..i + |sub|] == sub
  }

  /** strings.Contains: `sub` is a substring of `s`. */
  predicate Contains(s: string, sub: string)
    ensures sub == [] ==> Contains(s, sub)
    ensures Contains(s, sub) ==> |sub| <= |s|
  {
    assert OccursAt(s, [], 0);
    exists i: nat | i <= |s| - |sub| :: OccursAt(s, sub, i)
  }

  /** A substring of a slice of `s` is a substring of `s`. */
  lemma ContainsInSlice(s: string, lo: nat, hi: nat, sub: string)
    requires lo <= hi <= |s|
    requires Contains(s[lo..hi], sub)
    ensures Contains(s, sub)
  {
    var i: nat :| i <= hi - lo - |sub| && OccursAt(s[lo..hi], sub, i);
    var t := s[lo..hi];
    assert forall k :: 0 <= k < |sub| ==> sub[k] == t[i + k] == s[lo + i + k];
    assert s[lo + i..lo + i + |sub|] == sub;
    assert OccursAt(s, sub, lo + i);
  }

  /** A literal placed anywhere in a text is found by Contains. */
  lemma ContainsInfix(a: string, sub: string, b: string)
    ensures Contains(a + sub + b, sub)
  {
    var s := a + sub + b;
    assert s[|a|..|a| + |sub|] == sub;
    assert OccursAt(s, sub, |a|);
  }

  /** A substring of a substring of `s` is a substring of `s`. */
  lemma ContainsTransitive(s: string, x: string, sub: string)
    ensures Contains(s, x) && Contains(x, sub) ==> Contains(s, sub)
  {
    if Contains(s, x) && Contains(x, sub) {
      var i: nat :| i <= |s| - |x| && OccursAt(s, x, i);
      ContainsInSlice(s, i, i + |x|, sub);
    }
  }

  // ---------------------------------------------------------------------
  // strings.Split and strings.Join with a one-character separator
  // ---------------------------------------------------------------------

  /** The position of the first `c` in `s`. */
  function IndexOf(s: string, c: char): (i: nat)
    requires c in s
    ensures i < |s| && s[i] == c && c !in s[..i]
  {
    if s[0] == c then 0
    else
      var j := IndexOf(s[1..], c);
      assert s[..j + 1] == [s[0]] + s[1..][..j];
      j + 1
  }

  /** A character that does not occur before a known `c` leaves that `c` first. */
  lemma IndexOfAfter(a: string, c: char, b: string)
    requires c !in a
    ensures c in a + [c] + b && IndexOf(a + [c] + b, c) == |a|
  {
    var s := a + [c] + b;
    assert s[|a|] == c;
    assert s[..|a|] == a;
  }

  /**
   * strings.Split(s, string(sep)): the pieces of `s` between the occurrences
   * of `sep`, in order; a string without `sep` is one piece.
   */
  function Split(s: string, sep: char): (pieces: seq<string>)
    ensures |pieces| >= 1
    ensures forall k :: 0 <= k < |pieces| ==> sep !in pieces[k]
    ensures pieces[0] <= s && (|pieces[0]| == |s| || s[|pieces[0]|] == sep)
    decreases |s|
  {
    if sep in s then
      var i := IndexOf(s, sep);
      [s[..i]] + Split(s[i + 1..], sep)
    else
      [s]
  }

  /** strings.Join(pieces, string(sep)). */
  function Join(pieces: seq<string>, sep: char): string
    requires |pieces| >= 1
  {
    if |pieces| == 1 then pieces[0] else pieces[0] + [sep] + Join(pieces[1..], sep)
  }

  /** Joining the pieces of a split gives back the original string. */
  lemma {:induction false} JoinSplit(s: string, sep: char)
    ensures Join(Split(s, sep), sep) == s
    decreases |s|
  {
    if sep in s {
      var i := IndexOf(s, sep);
      var rest := Split(s[i + 1..], sep);
      JoinSplit(s[i + 1..], sep);
      assert Split(s, sep) == [s[..i]] + rest;
      assert ([s[..i]] + rest)[1..] == rest;
      assert s == s[..i] + [sep] + s[i + 1..];
    }
  }

  /** Splitting a join of separator-free pieces gives back the pieces. */
  lemma {:induction false} SplitJoin(pieces: seq<string>, sep: char)
    requires |pieces| >= 1
    requires forall k :: 0 <= k < |pieces| ==> sep !in pieces[k]
    ensures Split(Join(pieces, sep), sep) == pieces
  {
    if |pieces| > 1 {
      var head := pieces[0];
      var tail := Join(pieces[1..], sep);
      var s := head + [sep] + tail;
      assert Join(pieces, sep) == s;
      IndexOfAfter(head, sep, tail);
      assert s[..|head|] == head;
      assert s[|head| + 1..] == tail;
      assert Split(s, sep) == [head] + Split(tail, sep);
      SplitJoin(pieces[1..], sep);
      assert pieces == [head] + pieces[1..];
    }
  }

  // ---------------------------------------------------------------------
  // White space: strings.Fields and strings.TrimSpace
  // ---------------------------------------------------------------------

  /** unicode.IsSpace: the Unicode White_Space property. */
  predicate IsSpace(c: char)
  {
    || c == '\t' || c == '\n' || c == '\U{000B}' || c == '\U{000C}' || c == '\r'
    || c == ' ' || c == '\U{0085}' || c == '\U{00A0}' || c == '\U{1680}'
    || ('\U{2000}' <= c <= '\U{200A}')
    || c == '\U{2028}' || c == '\U{2029}' || c == '\U{202F}' || c == '\U{205F}'
    || c == '\U{3000}'
  }

  predicate NoSpace(w: string)
  {
    forall k :: 0 <= k < |w| ==> !IsSpace(w[k])
  }

  predicate AllSpace(w: string)
  {
    forall k :: 0 <= k < |w| ==> IsSpace(w[k])
  }

  /** The length of the run of non-space characters that `s` starts with. */
  function TokenLen(s: string): (n: nat)
    ensures n <= |s| && NoSpace(s[..n]) && (n < |s| ==> IsSpace(s[n]))
  {
    if s == [] || IsSpace(s[0]) then 0
    else
      var n := 1 + TokenLen(s[1..]);
      assert s[..n] == [s[0]] + s[1..][..n - 1];
      n
  }

  /** strings.Fields: the maximal runs of non-space characters of `s`, in order. */
  function Fields(s: string): (words: seq<string>)
    ensures forall k :: 0 <= k < |words| ==> words[k] != [] && NoSpace(words[k])
    decreases |s|
  {
    if s == [] then []
    else if IsSpace(s[0]) then Fields(s[1..])
    else
      var n := TokenLen(s);
      [s[..n]] + Fields(s[n..])
  }

  /** Words separated by single leading spaces: " w1 w2 ... wn". */
  function Spaced(words: seq<string>): string
  {
    if words == [] then [] else [' '] + words[0] + Spaced(words[1..])
  }

  lemma {:induction false} TokenLenOfWord(w: string, rest: string)
    requires w != [] && NoSpace(w)
    requires rest == [] || IsSpace(rest[0])
    ensures TokenLen(w + rest) == |w|
    decreases |w|
  {
    var s := w + rest;
    if |w| == 1 {
      assert s[1..] == rest;
    } else {
      assert s[1..] == w[1..] + rest;
      TokenLenOfWord(w[1..], rest);
    }
  }

  /** Leading white space is skipped and one word is read up to the next space. */
  lemma {:induction false} FieldsOfWord(sp: string, w: string, rest: string)
    requires AllSpace(sp)
    requires w != [] && NoSpace(w)
    requires rest == [] || IsSpace(rest[0])
    ensures Fields(sp + w + rest) == [w] + Fields(rest)
    decreases |sp|
  {
    var s := sp + w + rest;
    if sp == [] {
      assert s == w + rest;
      TokenLenOfWord(w, rest);
      assert s[..|w|] == w;
      assert s[|w|..] == rest;
    } else {
      assert s[1..] == sp[1..] + w + rest;
      FieldsOfWord(sp[1..], w, rest);
    }
  }

  /** Fields reads back the words of a space-separated line. */
  lemma {:induction false} FieldsSpaced(words: seq<string>)
    requires forall k :: 0 <= k < |words| ==> words[k] != [] && NoSpace(words[k])
    ensures Fields(Spaced(words)) == words
  {
    if words != [] {
      var rest := Spaced(words[1..]);
      FieldsSpaced(words[1..]);
      assert AllSpace([' ']);
      FieldsOfWord([' '], words[0], rest);
      assert words == [words[0]] + words[1..];
    }
  }

  /** `s` without its leading white space. */
  function TrimLeft(s: string): (t: string)
    ensures t == [] || !IsSpace(t[0])
    ensures |t| <= |s| && t == s[|s| - |t|..]
  {
    if s != [] && IsSpace(s[0]) then TrimLeft(s[1..]) else s
  }

  /** `s` without its trailing white space. */
  function TrimRight(s: string): (t: string)
    ensures t <= s
    ensures t == [] || !IsSpace(t[|t| - 1])
  {
    if s != [] && IsSpace(s[|s| - 1]) then TrimRight(s[..|s| - 1]) else s
  }

  /**
   * TrimLeft removes the leading white space and nothing else: the result
   * is a suffix that does not start with white space, and every removed
   * character is white space.
   */
  lemma {:induction false} TrimLeftRemovesOnlySpace(s: string)
    ensures TrimLeft(s) == s[|s| - |TrimLeft(s)|..]
    ensures TrimLeft(s) == [] || !IsSpace(TrimLeft(s)[0])
    ensures forall k :: 0 <= k < |s| - |TrimLeft(s)| ==> IsSpace(s[k])
  {
    if s != [] && IsSpace(s[0]) {
      var rest := s[1..];
      TrimLeftRemovesOnlySpace(rest);
      forall k | 0 < k < |s| - |TrimLeft(s)|
        ensures IsSpace(s[k])
      {
        assert s[k] == rest[k - 1];
      }
    }
  }

  /**
   * TrimRight removes the trailing white space and nothing else: the result
   * is a prefix that does not end with white space, and every removed
   * character is white space.
   */
  lemma {:induction false} TrimRightRemovesOnlySpace(s: string)
    ensures TrimRight(s) <= s
    ensures TrimRight(s) == [] || !IsSpace(TrimRight(s)[|TrimRight(s)| - 1])
    ensures forall k :: |TrimRight(s)| <= k < |s| ==> IsSpace(s[k])
  {
    if s != [] && IsSpace(s[|s| - 1]) {
      var init := s[..|s| - 1];
      TrimRightRemovesOnlySpace(init);
      forall k | |TrimRight(s)| <= k < |s| - 1
        ensures IsSpace(s[k])
      {
        assert s[k] == init[k];
      }
    }
  }

  /** strings.TrimSpace: `s` without its leading and trailing white space. */
  function TrimSpace(s: string): (t: string)
    ensures t == [] || (!IsSpace(t[0]) && !IsSpace(t[|t| - 1]))
    ensures |t| <= |s|
  {
    TrimRight(TrimLeft(s))
  }

  lemma {:induction false} TokenLenAppendSpace(s: string, c: char)
    requires IsSpace(c)
    ensures TokenLen(s + [c]) == TokenLen(s)
  {
    if s != [] && !IsSpace(s[0]) {
      assert (s + [c])[1..] == s[1..] + [c];
      TokenLenAppendSpace(s[1..], c);
    }
  }

  lemma {:induction false} FieldsAppendSpace(s: string, c: char)
    requires IsSpace(c)
    ensures Fields(s + [c]) == Fields(s)
    decreases |s|
  {
    var t := s + [c];
    if s == [] {
      assert t[1..] == [];
    } else if IsSpace(s[0]) {
      assert t[1..] == s[1..] + [c];
      FieldsAppendSpace(s[1..], c);
    } else {
      var n := TokenLen(s);
      TokenLenAppendSpace(s, c);
      assert t[..n] == s[..n];
      assert t[n..] == s[n..] + [c];
      FieldsAppendSpace(s[n..], c);
    }
  }

  lemma {:induction false} FieldsTrimLeft(s: string)
    ensures Fields(TrimLeft(s)) == Fields(s)
  {
    if s != [] && IsSpace(s[0]) {
      FieldsTrimLeft(s[1..]);
    }
  }

  lemma {:induction false} FieldsTrimRight(s: string)
    ensures Fields(TrimRight(s)) == Fields(s)
  {
    if s != [] && IsSpace(s[|s| - 1]) {
      var init := s[..|s| - 1];
      FieldsTrimRight(init);
      assert s == init + [s[|s| - 1]];
      FieldsAppendSpace(init, s[|s| - 1]);
    }
  }

  /** Trimming before splitting into words changes nothing. */
  lemma FieldsTrimSpace(s: string)
    ensures Fields(TrimSpace(s)) == Fields(s)
  {
    FieldsTrimRight(TrimLeft(s));
    FieldsTrimLeft(s);
  }

  // ---------------------------------------------------------------------
  // strconv.Atoi on a 64-bit platform, error discarded
  // ---------------------------------------------------------------------

  const MaxInt64: int := 0x7FFF_FFFF_FFFF_FFFF
  const MinInt64: int := -0x8000_0000_0000_0000
  const MaxUint64: int := 0xFFFF_FFFF_FFFF_FFFF

  predicate IsDigit(c: char)
  {
    '0' <= c <= '9'
  }

  predicate AllDigits(s: string)
  {
    forall k :: 0 <= k < |s| ==> IsDigit(s[k])
  }

  /** The length of the run of decimal digits that `s` starts with. */
  function DigitPrefixLen(s: string): (n: nat)
    ensures n <= |s| && AllDigits(s[..n]) && (n < |s| ==> !IsDigit(s[n]))
  {
    if s == [] || !IsDigit(s[0]) then 0
    else
      var n := 1 + DigitPrefixLen(s[1..]);
      assert s[..n] == [s[0]] + s[1..][..n - 1];
      n
  }

  /** The value of a string of decimal digits, most significant first. */
  function DigitsValue(s: string): nat
    requires AllDigits(s)
  {
    if s == [] then 0
    else 10 * DigitsValue(s[..|s| - 1]) + (s[|s| - 1] as int - '0' as int)
  }

  /**
   * strconv.Atoi(s) with its error ignored. An optional sign, then decimal
   * digits. A non-digit gives 0, unless the digits before it already exceed
   * the unsigned 64-bit range, in which case, as for every out-of-range
   * value, the result saturates at the signed 64-bit bound.
   */
  function Atoi(s: string): (n: int)
    ensures MinInt64 <= n <= MaxInt64
  {
    var neg := |s| > 0 && s[0] == '-';
    var body := if |s| > 0 && (s[0] == '+' || s[0] == '-') then s[1..] else s;
    var digits := body[..DigitPrefixLen(body)];
    var v: int := DigitsValue(digits);
    if body == [] then 0
    else if v > MaxUint64 then (if neg then MinInt64 else MaxInt64)
    else if |digits| < |body| then 0
    else if neg then (if v > -MinInt64 then MinInt64 else -v)
    else (if v > MaxInt64 then MaxInt64 else v)
  }

  function DigitChar(d: nat): (c: char)
    requires d < 10
    ensures IsDigit(c) && c as int - '0' as int == d
  {
    ('0' as int + d) as char
  }

  /** strconv.Itoa for non-negative values: the shortest decimal numeral. */
  function Decimal(n: nat): (s: string)
    ensures s != [] && AllDigits(s) && DigitsValue(s) == n
  {
    if n < 10 then
      var s := [DigitChar(n)];
      assert s[..0] == [];
      s
    else
      var init := Decimal(n / 10);
      var s := init + [DigitChar(n % 10)];
      assert s[..|s| - 1] == init;
      s
  }

  /** Atoi reads back every non-negative numeral in range. */
  lemma AtoiDecimal(n: nat)
    requires n <= MaxInt64
    ensures Atoi(Decimal(n)) == n
  {
    var s := Decimal(n);
    assert !(s[0] == '+' || s[0] == '-');
    assert s[..DigitPrefixLen(s)] == s;
  }

  /** Atoi reads back every negative numeral in range. */
  lemma AtoiNegativeDecimal(n: nat)
    requires n <= -MinInt64
    ensures Atoi(['-'] + Decimal(n)) == -(n as int)
  {
    var s := ['-'] + Decimal(n);
    assert s[1..] == Decimal(n);
    assert Decimal(n)[..DigitPrefixLen(Decimal(n))] == Decimal(n);
  }

  /**
   * Atoi reads back every in-range numeral with an optional sign and any
   * leading zeros: "+7" and "007" give 7, "-0" gives 0.
   */
  lemma AtoiDigits(sign: string, digits: string)
    requires SignPrefix(sign) && AllDigits(digits) && digits != []
    requires if sign == ['-'] then DigitsValue(digits) <= -MinInt64 else DigitsValue(digits) <= MaxInt64
    ensures Atoi(sign + digits) == if sign == ['-'] then -(DigitsValue(digits) as int) else DigitsValue(digits)
  {
    assert sign + digits + [] == sign + digits && digits + [] == digits;
    AtoiSign(sign, digits, []);
    DigitPrefixOfDigits(digits, []);
    assert digits[..|digits|] == digits;
  }

  /** An optional leading sign. */
  predicate SignPrefix(sign: string)
  {
    sign == [] || sign == ['+'] || sign == ['-']
  }

  /** A digit run followed by a non-digit or the end is the whole digit prefix. */
  lemma {:induction false} DigitPrefixOfDigits(digits: string, rest: string)
    requires AllDigits(digits) && (rest == [] || !IsDigit(rest[0]))
    ensures DigitPrefixLen(digits + rest) == |digits|
  {
    if digits != [] {
      assert (digits + rest)[1..] == digits[1..] + rest;
      DigitPrefixOfDigits(digits[1..], rest);
    }
  }

  /** Atoi's view of `sign + digits + rest`: the sign it sees and the text after it. */
  lemma AtoiSign(sign: string, digits: string, rest: string)
    requires SignPrefix(sign) && AllDigits(digits)
    requires sign != [] || digits != [] || rest == [] || (rest[0] != '+' && rest[0] != '-')
    ensures var s := sign + digits + rest;
            && ((|s| > 0 && s[0] == '-') <==> sign == ['-'])
            && (if |s| > 0 && (s[0] == '+' || s[0] == '-') then s[1..] else s) == digits + rest
  {
    var s := sign + digits + rest;
    if sign != [] {
      assert s[0] == sign[0] && s[1..] == digits + rest;
    } else if digits != [] {
      assert s[0] == digits[0] && s == digits + rest;
    } else {
      assert s == rest;
    }
  }

  /**
   * The non-empty inputs on which strconv.Atoi reports a syntax error (the
   * empty input is the remaining one): a lone sign,
   * or an optional sign and an in-range digit run followed by a character
   * that is not a digit (and is not a sign, when nothing precedes it).
   */
  predicate SyntaxError(sign: string, digits: string, rest: string)
  {
    && SignPrefix(sign) && AllDigits(digits) && DigitsValue(digits) <= MaxUint64
    && (if rest == [] then sign != [] && digits == []
        else !IsDigit(rest[0]) && (sign != [] || digits != [] || (rest[0] != '+' && rest[0] != '-')))
  }

  /** Every syntax error ("5x", "1.5", "-", "+-3", "abc") parses as 0 once the error is discarded. */
  lemma AtoiSyntaxError(sign: string, digits: string, rest: string)
    requires SyntaxError(sign, digits, rest)
    ensures Atoi(sign + digits + rest) == 0
  {
    AtoiSign(sign, digits, rest);
    DigitPrefixOfDigits(digits, rest);
    assert (digits + rest)[..|digits|] == digits;
  }

  /**
   * A digit run beyond the signed 64-bit range saturates: at the bound of
   * its sign when it is the whole input, and whatever follows it when it is
   * already beyond the unsigned range.
   */
  lemma AtoiSaturates(sign: string, digits: string, rest: string)
    requires SignPrefix(sign) && AllDigits(digits) && DigitsValue(digits) > MaxInt64
    requires rest == [] || (!IsDigit(rest[0]) && DigitsValue(digits) > MaxUint64)
    ensures Atoi(sign + digits + rest) == if sign == ['-'] then MinInt64 else MaxInt64
  {
    assert digits != [];
    AtoiSign(sign, digits, rest);
    DigitPrefixOfDigits(digits, rest);
    assert (digits + rest)[..|digits|] == digits;
  }

  /** A word that starts with neither a sign nor a digit parses as 0. */
  lemma AtoiNonNumeric(w: string)
    requires w != [] && !IsDigit(w[0]) && w[0] != '+' && w[0] != '-'
    ensures Atoi(w) == 0
  {
    assert w[..DigitPrefixLen(w)] == [];
  }
}
