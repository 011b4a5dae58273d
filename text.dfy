/**
 * The Rust string operations the two plugins use (`char::is_whitespace`,
 * `str::trim`, `str::split`, `join`, `str::contains`, `str::replace`,
 * `to_lowercase`, decimal `format!` of integers), written out on `string`.
 */
module Text {
  import opened Collections

  /** Rust's `char::is_whitespace`: the characters with the Unicode White_Space property. */
  predicate IsWhitespace(c: char) {
    || ('\t' <= c <= '\r')
    || c == ' '
    || c == '\U{85}'
    || c == '\U{A0}'
    || c == '\U{1680}'
    || ('\U{2000}' <= c <= '\U{200A}')
    || c == '\U{2028}'
    || c == '\U{2029}'
    || c == '\U{202F}'
    || c == '\U{205F}'
    || c == '\U{3000}'
  }

  ghost predicate AllWhitespace(s: string) {
    forall i :: 0 <= i < |s| ==> IsWhitespace(s[i])
  }

  /** No whitespace at either end. */
  predicate IsTrimmed(s: string) {
    s == [] || (!IsWhitespace(s[0]) && !IsWhitespace(s[|s| - 1]))
  }

  /** Number of leading whitespace characters of `s`. */
  function LeadingWhitespace(s: string): (k: nat)
    ensures k <= |s|
    ensures forall i :: 0 <= i < k ==> IsWhitespace(s[i])
    ensures k < |s| ==> !IsWhitespace(s[k])
  {
    if s != [] && IsWhitespace(s[0]) then 1 + LeadingWhitespace(s[1..]) else 0
  }

  /** Length of `s` once its trailing whitespace is dropped. */
  function TrailingStart(s: string): (k: nat)
    ensures k <= |s|
    ensures forall i :: k <= i < |s| ==> IsWhitespace(s[i])
    ensures k > 0 ==> !IsWhitespace(s[k - 1])
  {
    if s != [] && IsWhitespace(s[|s| - 1]) then TrailingStart(s[..|s| - 1]) else |s|
  }

  /** Rust's `str::trim`: the slice of `s` left once leading and trailing whitespace are removed. */
  function Trim(s: string): (r: string)
    ensures IsTrimmed(r)
    ensures exists a, b :: 0 <= a <= b <= |s| && r == s[a..b] && AllWhitespace(s[..a]) && AllWhitespace(s[b..])
  {
    var a := LeadingWhitespace(s);
    var t := s[a..];
    var e := TrailingStart(t);
    assert t[..e] == s[a..a + e];
    assert s[a + e..] == t[e..];
    assert AllWhitespace(s[..a]);
    t[..e]
  }

  /** Trimming gives the empty string exactly when the input is all whitespace. */
  lemma TrimEmptyIff(s: string)
    ensures Trim(s) == [] <==> AllWhitespace(s)
  {
    var a := LeadingWhitespace(s);
    if AllWhitespace(s) {
      assert a == |s|;
    } else {
      assert a < |s| && !IsWhitespace(s[a]);
      assert TrailingStart(s[a..]) > 0;
    }
  }

  /** A string without surrounding whitespace is left as it is. */
  lemma TrimTrimmed(s: string)
    requires IsTrimmed(s)
    ensures Trim(s) == s
  {
    assert LeadingWhitespace(s) == 0;
    assert TrailingStart(s) == |s|;
  }

  /** Trimming introduces no character. */
  lemma TrimWithin(s: string, c: char)
    ensures c in Trim(s) ==> c in s
  {
    var r := Trim(s);
    if c in r {
      var a, b :| 0 <= a <= b <= |s| && r == s[a..b] && AllWhitespace(s[..a]) && AllWhitespace(s[b..]);
      var k :| 0 <= k < |r| && r[k] == c;
      assert s[a + k] == c;
    }
  }

  /** Rust's `str::split` on one separator character, collected: one piece more than there are separators. */
  function Split(s: string, sep: char): (r: seq<string>)
    ensures |r| >= 1
    ensures forall i :: 0 <= i < |r| ==> sep !in r[i]
  {
    if s == [] then [""]
    else
      var rest := Split(s[1..], sep);
      if s[0] == sep then [""] + rest else [[s[0]] + rest[0]] + rest[1..]
  }

  /** Rust's `join(sep)` on a vector of strings. */
  function Join(parts: seq<string>, sep: string): string {
    if parts == [] then ""
    else if |parts| == 1 then parts[0]
    else parts[0] + sep + Join(parts[1..], sep)
  }

  lemma JoinCons(x: string, rest: seq<string>, sep: string)
    requires rest != []
    ensures Join([x] + rest, sep) == x + sep + Join(rest, sep)
  {
    assert ([x] + rest)[1..] == rest;
  }

  /** Joining the pieces with the separator gives back the string that was split. */
  lemma {:induction false} JoinSplit(s: string, sep: char)
    ensures Join(Split(s, sep), [sep]) == s
  {
    if s != [] {
      var rest := Split(s[1..], sep);
      JoinSplit(s[1..], sep);
      if s[0] == sep {
        JoinCons("", rest, [sep]);
      } else if |rest| == 1 {
        assert Split(s, sep) == [[s[0]] + rest[0]];
      } else {
        JoinCons([s[0]] + rest[0], rest[1..], [sep]);
        JoinCons(rest[0], rest[1..], [sep]);
        assert [rest[0]] + rest[1..] == rest;
      }
    }
  }

  /** A separator splits the text on either side of it independently. */
  lemma {:induction false} SplitConcat(a: string, b: string, sep: char)
    ensures Split(a + [sep] + b, sep) == Split(a, sep) + Split(b, sep)
  {
    var s := a + [sep] + b;
    if a == [] {
      assert s[0] == sep && s[1..] == b;
    } else {
      SplitConcat(a[1..], b, sep);
      assert s[0] == a[0] && s[1..] == a[1..] + [sep] + b;
      if a[0] == sep {
        SplitConcatAtSeparator(a, b, sep);
      } else {
        SplitConcatAtOther(a, b, sep);
      }
    }
  }

  /** `a` starts with the separator: its empty first piece stays in front. */
  lemma SplitConcatAtSeparator(a: string, b: string, sep: char)
    requires a != [] && a[0] == sep
    requires (a + [sep] + b)[1..] == a[1..] + [sep] + b
    requires Split(a[1..] + [sep] + b, sep) == Split(a[1..], sep) + Split(b, sep)
    ensures Split(a + [sep] + b, sep) == Split(a, sep) + Split(b, sep)
  {
    var left, right := Split(a[1..], sep), Split(b, sep);
    assert Split(a + [sep] + b, sep) == [""] + (left + right);
    assert Split(a, sep) == [""] + left;
    AppendAssociative([""], left, right);
  }

  /** `a` starts with another character: it joins the first piece of the rest of `a`. */
  lemma SplitConcatAtOther(a: string, b: string, sep: char)
    requires a != [] && a[0] != sep
    requires (a + [sep] + b)[0] == a[0] && (a + [sep] + b)[1..] == a[1..] + [sep] + b
    requires Split(a[1..] + [sep] + b, sep) == Split(a[1..], sep) + Split(b, sep)
    ensures Split(a + [sep] + b, sep) == Split(a, sep) + Split(b, sep)
  {
    var left, right := Split(a[1..], sep), Split(b, sep);
    var rest := left + right;
    var head := [[a[0]] + left[0]];
    assert rest[0] == left[0];
    assert rest[1..] == left[1..] + right;
    assert Split(a + [sep] + b, sep) == head + rest[1..];
    assert Split(a, sep) == head + left[1..];
    AppendAssociative(head, left[1..], right);
  }

  /** Text without the separator is one piece. */
  lemma {:induction false} SplitWithoutSeparator(s: string, sep: char)
    requires sep !in s
    ensures Split(s, sep) == [s]
  {
    if s != [] {
      SplitWithoutSeparator(s[1..], sep);
      assert [s[0]] + s[1..] == s;
    }
  }

  /** Pieces free of the separator are recovered from their join. */
  lemma {:induction false} SplitJoin(parts: seq<string>, sep: char)
    requires parts != []
    requires forall i :: 0 <= i < |parts| ==> sep !in parts[i]
    ensures Split(Join(parts, [sep]), sep) == parts
  {
    if |parts| == 1 {
      SplitWithoutSeparator(parts[0], sep);
    } else {
      SplitJoin(parts[1..], sep);
      SplitWithoutSeparator(parts[0], sep);
      SplitConcat(parts[0], Join(parts[1..], [sep]), sep);
      assert [parts[0]] + parts[1..] == parts;
    }
  }

  /** `needle` occurs in `hay` starting at index `i`. */
  ghost predicate OccursAt(hay: string, needle: string, i: int) {
    0 <= i && i + |needle| <= |hay| && hay[i..i + |needle|] == needle
  }

  /** Rust's `str::contains` with a string pattern (the empty pattern is contained in everything). */
  function Contains(hay: string, needle: string): bool
    decreases |hay|
  {
    if |needle| > |hay| then false
    else if hay[..|needle|] == needle then true
    else Contains(hay[1..], needle)
  }

  lemma {:induction false} ContainsIff(hay: string, needle: string)
    ensures Contains(hay, needle) <==> exists i :: OccursAt(hay, needle, i)
    decreases |hay|
  {
    if |needle| > |hay| {
    } else if hay[..|needle|] == needle {
      assert OccursAt(hay, needle, 0);
    } else {
      ContainsIff(hay[1..], needle);
      forall i | OccursAt(hay, needle, i)
        ensures OccursAt(hay[1..], needle, i - 1)
      {
        assert i != 0;
        assert hay[1..][i - 1..i - 1 + |needle|] == hay[i..i + |needle|];
      }
      forall i | OccursAt(hay[1..], needle, i)
        ensures OccursAt(hay, needle, i + 1)
      {
        assert hay[1..][i..i + |needle|] == hay[i + 1..i + 1 + |needle|];
      }
    }
  }

  /** Rust's `str::replace`: each non-overlapping occurrence of `from`, found left to right, becomes `to`. */
  function Replace(s: string, from: string, to: string): string
    requires from != []
    decreases |s|
  {
    if |s| < |from| then s
    else if s[..|from|] == from then to + Replace(s[|from|..], from, to)
    else [s[0]] + Replace(s[1..], from, to)
  }

  /** Replacing a pattern that does not occur changes nothing. */
  lemma {:induction false} ReplaceAbsent(s: string, from: string, to: string)
    requires from != []
    requires !Contains(s, from)
    ensures Replace(s, from, to) == s
    decreases |s|
  {
    if |s| >= |from| {
      ReplaceAbsent(s[1..], from, to);
      assert [s[0]] + s[1..] == s;
    }
  }

  /**
   * With `ReplaceAbsent`, this characterizes `Replace`: the first occurrence
   * of the pattern is spliced out for the replacement, and the search goes on
   * after it.
   */
  lemma {:induction false} ReplaceFirst(s: string, from: string, to: string, i: nat)
    requires from != []
    requires OccursAt(s, from, i)
    requires forall j :: 0 <= j < i ==> !OccursAt(s, from, j)
    ensures Replace(s, from, to) == s[..i] + to + Replace(s[i + |from|..], from, to)
    decreases i
  {
    if i == 0 {
      ReplaceAtStart(s, from, to);
      assert s[..0] + to == to;
    } else {
      OccurrenceInTail(s, from, i);
      ReplaceFirst(s[1..], from, to, i - 1);
      ReplaceFirstStep(s, from, to, i);
    }
  }

  /** A pattern found once, with nothing before it, is replaced there alone. */
  lemma ReplaceOnce(p: string, from: string, to: string, rest: string)
    requires from != []
    requires forall j :: 0 <= j < |p| ==> !OccursAt(p + from + rest, from, j)
    requires !Contains(rest, from)
    ensures Replace(p + from + rest, from, to) == p + to + rest
  {
    var s := p + from + rest;
    assert s[|p|..|p| + |from|] == from;
    ReplaceFirst(s, from, to, |p|);
    assert s[|p| + |from|..] == rest;
    assert s[..|p|] == p;
    ReplaceAbsent(rest, from, to);
  }

  lemma ReplaceAtStart(s: string, from: string, to: string)
    requires from != [] && OccursAt(s, from, 0)
    ensures Replace(s, from, to) == to + Replace(s[|from|..], from, to)
  {
    assert s[..|from|] == s[0..|from|];
  }

  lemma ReplaceFirstStep(s: string, from: string, to: string, i: nat)
    requires from != [] && 0 < i && i + |from| <= |s| && !OccursAt(s, from, 0)
    requires Replace(s[1..], from, to) == s[1..][..i - 1] + to + Replace(s[1..][i - 1 + |from|..], from, to)
    ensures Replace(s, from, to) == s[..i] + to + Replace(s[i + |from|..], from, to)
  {
    ReplaceSkip(s, from, to);
    TailSuffix(s, i, |from|);
    ConsAssemble(s, i, to, Replace(s[1..], from, to), Replace(s[i + |from|..], from, to));
  }

  lemma TailSuffix(s: string, i: int, n: nat)
    requires 0 < i && i + n <= |s|
    ensures s[1..][i - 1 + n..] == s[i + n..]
  {
  }

  /** Putting the first character back in front of a splice of the rest. */
  lemma ConsAssemble(s: string, i: int, to: string, replaced: string, after: string)
    requires 0 < i <= |s|
    requires replaced == s[1..][..i - 1] + to + after
    ensures [s[0]] + replaced == s[..i] + to + after
  {
    assert [s[0]] + s[1..][..i - 1] == s[..i];
    AppendAssociative([s[0]], s[1..][..i - 1] + to, after);
    AppendAssociative([s[0]], s[1..][..i - 1], to);
  }

  /** Where the pattern does not start, the first character is kept and the search moves on. */
  lemma ReplaceSkip(s: string, from: string, to: string)
    requires from != [] && |from| < |s| && !OccursAt(s, from, 0)
    ensures Replace(s, from, to) == [s[0]] + Replace(s[1..], from, to)
  {
  }

  /** The first occurrence, seen from the second character on. */
  lemma OccurrenceInTail(s: string, from: string, i: nat)
    requires 0 < i && OccursAt(s, from, i)
    requires forall j :: 0 <= j < i ==> !OccursAt(s, from, j)
    ensures OccursAt(s[1..], from, i - 1)
    ensures forall j :: 0 <= j < i - 1 ==> !OccursAt(s[1..], from, j)
  {
    var t := s[1..];
    forall j | 0 <= j < i - 1
      ensures !OccursAt(t, from, j)
    {
      assert !OccursAt(s, from, j + 1);
      assert t[j..j + |from|] == s[j + 1..j + 1 + |from|];
    }
    assert t[i - 1..i - 1 + |from|] == s[i..i + |from|];
  }

  /** An occurrence that ends within the first `n` characters is an occurrence in that prefix. */
  lemma OccursInPrefix(s: string, needle: string, j: int, n: int)
    requires 0 <= n <= |s|
    ensures OccursAt(s, needle, j) && j + |needle| <= n ==> OccursAt(s[..n], needle, j)
  {
    if OccursAt(s, needle, j) && j + |needle| <= n {
      assert s[..n][j..j + |needle|] == s[j..j + |needle|];
    }
  }

  /** An occurrence that covers the separator between `x` and `y` has the separator in it. */
  lemma StraddleHasSeparator(x: string, y: string, sep: char, needle: string, i: int)
    requires OccursAt(x + [sep] + y, needle, i)
    ensures i <= |x| < i + |needle| ==> sep in needle
  {
    if i <= |x| < i + |needle| {
      assert needle[|x| - i] == (x + [sep] + y)[|x|];
    }
  }

  /** A pattern without the separator occurs in `x + [sep] + y` only inside `x` or inside `y`. */
  lemma ContainsAcross(x: string, y: string, sep: char, needle: string)
    requires sep !in needle
    ensures Contains(x + [sep] + y, needle) ==> Contains(x, needle) || Contains(y, needle)
  {
    var s := x + [sep] + y;
    ContainsIff(s, needle);
    ContainsIff(x, needle);
    ContainsIff(y, needle);
    if Contains(s, needle) {
      var i :| OccursAt(s, needle, i);
      StraddleHasSeparator(x, y, sep, needle, i);
      if i + |needle| <= |x| {
        assert s[i..i + |needle|] == x[i..i + |needle|];
        assert OccursAt(x, needle, i);
      } else {
        SliceOfRight(x + [sep], y, i, i + |needle|);
        assert OccursAt(y, needle, i - |x| - 1);
      }
    }
  }

  lemma SliceOfRight(p: string, q: string, i: int, k: int)
    requires |p| <= i <= k <= |p| + |q|
    ensures (p + q)[i..k] == q[i - |p|..k - |p|]
  {
  }

  /** A separator-free word found between two separators is one of the pieces of the split. */
  lemma SeparatedOccurrence(s: string, sep: char, w: string, j: int)
    requires sep !in w
    ensures OccursAt(s, [sep] + w + [sep], j) ==>
      Split(s, sep) == Split(s[..j], sep) + [w] + Split(s[j + |w| + 2..], sep)
  {
    if OccursAt(s, [sep] + w + [sep], j) {
      var rest := s[j + |w| + 2..];
      assert s == s[..j] + [sep] + (w + [sep] + rest);
      SplitConcat(s[..j], w + [sep] + rest, sep);
      SplitConcat(w, rest, sep);
      SplitWithoutSeparator(w, sep);
    }
  }

  /** A piece found with another piece after it is not the last piece. */
  lemma InteriorPiece(pre: seq<string>, w: string, a: seq<string>, b: seq<string>)
    ensures pre + [w] == a + [w] + b && b != [] ==> w in pre
  {
    if pre + [w] == a + [w] + b && b != [] {
      assert (a + [w] + b)[|a|] == w;
      assert pre[|a|] == (pre + [w])[|a|];
    }
  }

  /**
   * When `w` is only the last piece of `big`, no separator-`w`-separator
   * starts before `big` ends, in any text that `big` begins.
   */
  lemma NoSeparatedWordBefore(big: string, pre: seq<string>, s: string, n: nat, w: string, sep: char)
    requires sep !in w
    requires Split(big, sep) == pre + [w] && w !in pre
    requires n + |w| + 1 == |big| <= |s| && s[..|big|] == big
    ensures forall j :: 0 <= j < n ==> !OccursAt(s, [sep] + w + [sep], j)
  {
    var pattern := [sep] + w + [sep];
    forall j | 0 <= j < n
      ensures !OccursAt(s, pattern, j)
    {
      OccursInPrefix(s, pattern, j, |big|);
      SeparatedOccurrence(big, sep, w, j);
      InteriorPiece(pre, w, Split(big[..j], sep), Split(big[j + |w| + 2..], sep));
    }
  }

  /** Rust's `char::to_lowercase`, restricted to ASCII letters. */
  function LowerChar(c: char): char {
    if 'A' <= c <= 'Z' then (c as int + 32) as char else c
  }

  /** Rust's `str::to_lowercase`, restricted to ASCII letters. */
  function ToLower(s: string): string {
    seq(|s|, i requires 0 <= i < |s| => LowerChar(s[i]))
  }

  predicate IsDigit(c: char) {
    '0' <= c <= '9'
  }

  function DigitChar(d: nat): char
    requires d < 10
  {
    ('0' as int + d) as char
  }

  function DigitValue(c: char): nat
    requires IsDigit(c)
  {
    c as int - '0' as int
  }

  ghost predicate AllDigits(s: string) {
    forall i :: 0 <= i < |s| ==> IsDigit(s[i])
  }

  /** Rust's `{}` formatting of an unsigned integer: decimal digits without leading zeros. */
  function NatToString(n: nat): (r: string)
    ensures |r| >= 1 && AllDigits(r)
    ensures r[0] == '0' ==> r == "0"
    decreases n
  {
    if n < 10 then [DigitChar(n)] else NatToString(n / 10) + [DigitChar(n % 10)]
  }

  /** The value of a string of decimal digits. */
  function ParseDecimal(s: string): nat
    requires AllDigits(s)
  {
    if s == [] then 0 else ParseDecimal(s[..|s| - 1]) * 10 + DigitValue(s[|s| - 1])
  }

  /** Formatting loses nothing: the digits read back as the number. */
  lemma {:induction false} DecimalRoundTrip(n: nat)
    ensures ParseDecimal(NatToString(n)) == n
    decreases n
  {
    if n >= 10 {
      var head := NatToString(n / 10);
      DecimalRoundTrip(n / 10);
      assert (head + [DigitChar(n % 10)])[..|head|] == head;
    }
  }

  /** Distinct numbers are formatted as distinct strings. */
  lemma DecimalInjective(m: nat, n: nat)
    requires NatToString(m) == NatToString(n)
    ensures m == n
  {
    DecimalRoundTrip(m);
    DecimalRoundTrip(n);
  }
}
