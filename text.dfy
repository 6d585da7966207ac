/** The string operations the source relies on: `includes`, `startsWith`,
    `split(" ")`, the decimal rendering of an id in a template literal, and the
    case-insensitive comparison of the database's text columns. */
module Text {

  /** `s.startsWith(prefix)`. */
  predicate StartsWith(s: string, prefix: string) {
    |prefix| <= |s| && s[..|prefix|] == prefix
  }

  /** `s.includes(sub)`: `sub` occurs in `s` at some position. */
  predicate Contains(s: string, sub: string) {
    exists i :: 0 <= i <= |s| && StartsWith(s[i..], sub)
  }

  /** An occurrence at position `i` makes `Contains` true. */
  lemma ContainsAt(s: string, sub: string, i: nat)
    requires i + |sub| <= |s| && forall k :: 0 <= k < |sub| ==> s[i + k] == sub[k]
    ensures Contains(s, sub)
  {
    assert s[i..][..|sub|] == sub;
    assert StartsWith(s[i..], sub);
  }

  /** A character of `sub` that never occurs in `s` rules out every occurrence. */
  lemma NotContains(s: string, sub: string, k: nat)
    requires k < |sub| && sub[k] !in s
    ensures !Contains(s, sub)
  {
    forall i | 0 <= i <= |s|
      ensures !StartsWith(s[i..], sub)
    {
      if |sub| <= |s[i..]| {
        assert s[i..][..|sub|][k] == s[i + k];
      }
    }
  }

  /** An ASCII capital in lower case; any other character unchanged. */
  function LowerAscii(c: char): char {
    if 'A' <= c <= 'Z' then (c as int + 32) as char else c
  }

  /** A text as the tables' case-insensitive collation compares it: ASCII capitals
      lowered, every other character kept. */
  function FoldCase(s: string): (r: string)
    ensures |r| == |s|
    ensures forall i :: 0 <= i < |r| ==> !('A' <= r[i] <= 'Z')
    ensures forall i :: 0 <= i < |s| && !('A' <= s[i] <= 'Z') ==> r[i] == s[i]
  {
    seq(|s|, i requires 0 <= i < |s| => LowerAscii(s[i]))
  }

  /** Two texts the collation treats as equal, as a `where` equality and a unique
      index on a text column do. */
  predicate SameText(a: string, b: string) {
    FoldCase(a) == FoldCase(b)
  }

  /** Folding twice is folding once, so a text is the same text as its folding. */
  lemma FoldCaseIdempotent(s: string)
    ensures FoldCase(FoldCase(s)) == FoldCase(s)
    ensures SameText(s, FoldCase(s))
  {
  }

  /** Texts that differ only in the case of a letter are the same text but not equal. */
  lemma CapitalsMatch(a: string, b: string)
    requires a == "Admin" && b == "admin"
    ensures SameText(a, b) && a != b
  {
    assert a[0] != b[0];
    assert FoldCase(a)[0] == 'a';
    assert FoldCase(a) == b;
  }

  /** The characters of `s` up to, not including, the first `c`. */
  function TakeUntil(s: string, c: char): (r: string)
    ensures StartsWith(s, r) && c !in r
    ensures |r| < |s| ==> s[|r|] == c
    decreases |s|
  {
    if s == [] || s[0] == c then [] else [s[0]] + TakeUntil(s[1..], c)
  }

  /** `s.split(c)` for a one-character separator: every maximal run without `c`,
      including the empty runs before, between and after separators. */
  function Split(s: string, c: char): (r: seq<string>)
    ensures |r| >= 1
    decreases |s|
  {
    if s == [] then [[]]
    else if s[0] == c then [[]] + Split(s[1..], c)
    else
      var rest := Split(s[1..], c);
      [[s[0]] + rest[0]] + rest[1..]
  }

  /** `parts.join(c)`, the inverse of `Split`. */
  function Join(parts: seq<string>, c: char): string
    decreases |parts|
  {
    if parts == [] then []
    else if |parts| == 1 then parts[0]
    else parts[0] + [c] + Join(parts[1..], c)
  }

  /** Splitting and joining again gives back the original string. */
  lemma {:induction false} JoinSplit(s: string, c: char)
    ensures Join(Split(s, c), c) == s
    decreases |s|
  {
    if s == [] {
    } else if s[0] == c {
      JoinSplit(s[1..], c);
      var rest := Split(s[1..], c);
      assert Split(s, c) == [[]] + rest;
      assert s == [c] + s[1..];
    } else {
      JoinSplit(s[1..], c);
      var rest := Split(s[1..], c);
      var parts := [[s[0]] + rest[0]] + rest[1..];
      assert Split(s, c) == parts;
      if |rest| == 1 {
        assert Join(parts, c) == [s[0]] + rest[0];
      } else {
        assert parts[1..] == rest[1..];
        assert Join(rest, c) == rest[0] + [c] + Join(rest[1..], c);
      }
      assert s == [s[0]] + s[1..];
    }
  }

  /** No field of a split contains the separator, and the first field is the text
      before the first separator. */
  lemma {:induction false} SplitFields(s: string, c: char)
    ensures forall i :: 0 <= i < |Split(s, c)| ==> c !in Split(s, c)[i]
    ensures Split(s, c)[0] == TakeUntil(s, c)
    decreases |s|
  {
    if s != [] {
      SplitFields(s[1..], c);
    }
  }

  /** A string that starts with `word` followed by the separator splits into `word`
      and the fields of the remainder. */
  lemma SplitAfterWord(s: string, word: string, c: char)
    requires c !in word && StartsWith(s, word + [c])
    ensures Split(s, c) == [word] + Split(s[|word| + 1..], c)
    decreases |word|
  {
    if word == [] {
      assert s[0] == c;
    } else {
      assert s[0] == word[0];
      assert StartsWith(s[1..], word[1..] + [c]) by {
        assert s[1..][..|word|] == s[..|word| + 1][1..];
      }
      SplitAfterWord(s[1..], word[1..], c);
      assert s[1..][|word[1..]| + 1..] == s[|word| + 1..];
      var rest := Split(s[1..], c);
      assert rest[0] == word[1..] && rest[1..] == Split(s[|word| + 1..], c);
      assert [s[0]] + word[1..] == word;
    }
  }

  function DigitChar(d: nat): (r: char)
    requires d < 10
    ensures '0' <= r <= '9'
  {
    (d + 48) as char
  }

  /** The decimal rendering of a natural number, as a template literal prints it. */
  function NatToString(n: nat): (r: string)
    ensures |r| >= 1
    ensures forall i :: 0 <= i < |r| ==> '0' <= r[i] <= '9'
    ensures n >= 10 ==> r[0] != '0'
    decreases n
  {
    if n < 10 then [DigitChar(n)] else NatToString(n / 10) + [DigitChar(n % 10)]
  }
}
