/** The pieces of Rust's `str` API the agent's parsers are built from,
    with the standard library's exact edge cases: `char::is_whitespace`,
    `trim`, `split_whitespace`, `split(char)`, `lines`, `starts_with`, and
    `BufRead::read_line` (which keeps the line terminator). */
module Text {

  /** `char::is_whitespace`: the Unicode White_Space property. */
  predicate IsWhitespace(c: char) {
    var n := c as int;
    || n == 0x20 || 0x09 <= n <= 0x0D || n == 0x85 || n == 0xA0 || n == 0x1680
    || 0x2000 <= n <= 0x200A || n == 0x2028 || n == 0x2029 || n == 0x202F
    || n == 0x205F || n == 0x3000
  }

  /** A non-empty run of non-whitespace characters: what `split_whitespace` yields. */
  predicate IsWord(t: string) {
    |t| > 0 && forall i :: 0 <= i < |t| ==> !IsWhitespace(t[i])
  }

  predicate StartsWith(s: string, prefix: string) {
    |prefix| <= |s| && s[..|prefix|] == prefix
  }

  /** Position of the first `c` in `s`. */
  function IndexOf(s: string, c: char): (i: nat)
    requires c in s
    ensures i < |s| && s[i] == c
    ensures c !in s[..i]
  {
    if s[0] == c then 0
    else
      assert c in s[1..] by { var k :| 0 <= k < |s| && s[k] == c; assert s[1..][k - 1] == c; }
      var j := IndexOf(s[1..], c);
      assert s[..j + 1] == [s[0]] + s[1..][..j];
      1 + j
  }

  /** Number of occurrences of `c` in `s`. */
  function Count(s: string, c: char): nat {
    if s == [] then 0 else (if s[0] == c then 1 else 0) + Count(s[1..], c)
  }

  lemma {:induction false} CountAppend(a: string, b: string, c: char)
    ensures Count(a + b, c) == Count(a, c) + Count(b, c)
  {
    if a != [] {
      assert (a + b)[1..] == a[1..] + b;
      CountAppend(a[1..], b, c);
    } else {
      assert a + b == b;
    }
  }

  lemma {:induction false} CountAbsent(s: string, c: char)
    requires c !in s
    ensures Count(s, c) == 0
  {
    if s != [] {
      assert c !in s[1..] by { forall k | 0 <= k < |s| - 1 ensures s[1..][k] != c { assert s[1..][k] == s[k + 1]; } }
      CountAbsent(s[1..], c);
    }
  }

  /** The first `c` after a `c`-free prefix is the one right after it. */
  lemma {:induction false} IndexOfAfter(p: string, c: char, rest: string)
    requires c !in p
    ensures c in p + [c] + rest
    ensures IndexOf(p + [c] + rest, c) == |p|
    ensures (p + [c] + rest)[..|p|] == p
    ensures (p + [c] + rest)[|p| + 1..] == rest
  {
    var s := p + [c] + rest;
    assert s[|p|] == c;
    if p != [] {
      assert s[1..] == p[1..] + [c] + rest;
      assert c !in p[1..] by { forall k | 0 <= k < |p| - 1 ensures p[1..][k] != c { assert p[1..][k] == p[k + 1]; } }
      IndexOfAfter(p[1..], c, rest);
    }
  }

  // ---------------------------------------------------------------- trim

  /** `str::trim_start` */
  function TrimStart(s: string): (r: string)
    ensures |r| <= |s| && r == s[|s| - |r|..]
    ensures r == [] || !IsWhitespace(r[0])
    ensures forall i :: 0 <= i < |s| - |r| ==> IsWhitespace(s[i])
  {
    if s == [] || !IsWhitespace(s[0]) then s else TrimStart(s[1..])
  }

  /** `str::trim_end` */
  function TrimEnd(s: string): (r: string)
    ensures |r| <= |s| && r == s[..|r|]
    ensures r == [] || !IsWhitespace(r[|r| - 1])
    ensures forall i :: |r| <= i < |s| ==> IsWhitespace(s[i])
  {
    if s == [] || !IsWhitespace(s[|s| - 1]) then s else TrimEnd(s[..|s| - 1])
  }

  /** `str::trim`: the longest infix with no whitespace at either end. */
  function Trim(s: string): (r: string)
    ensures r == [] || (!IsWhitespace(r[0]) && !IsWhitespace(r[|r| - 1]))
  {
    TrimEnd(TrimStart(s))
  }

  /** Trimming leaves text that already has no whitespace at either end alone. */
  lemma TrimOfTrimmed(s: string)
    requires s == [] || (!IsWhitespace(s[0]) && !IsWhitespace(s[|s| - 1]))
    ensures Trim(s) == s
  {
  }

  /** Text with no whitespace at either end. */
  predicate IsTrimmed(s: string) {
    s == [] || (!IsWhitespace(s[0]) && !IsWhitespace(s[|s| - 1]))
  }

  predicate AllWhitespace(w: string) {
    forall i :: 0 <= i < |w| ==> IsWhitespace(w[i])
  }

  lemma {:induction false} TrimStartSkipsWhitespace(w: string, s: string)
    requires AllWhitespace(w)
    requires s == [] || !IsWhitespace(s[0])
    ensures TrimStart(w + s) == s
    decreases |w|
  {
    if w == [] {
      assert w + s == s;
    } else {
      assert (w + s)[1..] == w[1..] + s;
      TrimStartSkipsWhitespace(w[1..], s);
    }
  }

  lemma TrimEndDropsWhitespace(s: string, w: string)
    requires s == [] || !IsWhitespace(s[|s| - 1])
    requires AllWhitespace(w)
    ensures TrimEnd(s + w) == s
  {
    var t := s + w;
    var r := TrimEnd(t);
    assert forall i :: |s| <= i < |t| ==> IsWhitespace(t[i]) by {
      forall i | |s| <= i < |t| ensures IsWhitespace(t[i]) { assert t[i] == w[i - |s|]; }
    }
    if s != [] {
      assert !IsWhitespace(t[|s| - 1]);
    }
    assert |r| == |s|;
    assert r == t[..|s|] == s;
  }

  /** `trim` removes exactly the surrounding whitespace. */
  lemma TrimAround(w1: string, s: string, w2: string)
    requires AllWhitespace(w1) && AllWhitespace(w2) && IsTrimmed(s)
    ensures Trim(w1 + s + w2) == s
  {
    assert w1 + s + w2 == w1 + (s + w2);
    if s == [] {
      TrimStartSkipsWhitespace(w1 + w2, []);
      assert w1 + w2 + [] == w1 + (s + w2);
    } else {
      TrimStartSkipsWhitespace(w1, s + w2);
      TrimEndDropsWhitespace(s, w2);
    }
  }

  // ------------------------------------------------------ split_whitespace

  /** Length of the leading run of non-whitespace characters. */
  function WordLength(s: string): (n: nat)
    ensures n <= |s|
    ensures forall i :: 0 <= i < n ==> !IsWhitespace(s[i])
    ensures n < |s| ==> IsWhitespace(s[n])
  {
    if s == [] || IsWhitespace(s[0]) then 0 else 1 + WordLength(s[1..])
  }

  /** `str::split_whitespace`: the maximal runs of non-whitespace, in order. */
  function Tokens(s: string): (r: seq<string>)
    ensures forall t :: t in r ==> IsWord(t)
    decreases |s|
  {
    if s == [] then []
    else if IsWhitespace(s[0]) then Tokens(s[1..])
    else
      var n := WordLength(s);
      [s[..n]] + Tokens(s[n..])
  }

  /** Words joined by single spaces. */
  function Unwords(ts: seq<string>): string {
    if |ts| == 0 then [] else if |ts| == 1 then ts[0] else ts[0] + " " + Unwords(ts[1..])
  }

  lemma {:induction false} TokensSkipsSpace(s: string)
    ensures Tokens(" " + s) == Tokens(s)
  {
    assert (" " + s)[1..] == s;
  }

  lemma {:induction false} WordLengthOfWord(t: string, rest: string)
    requires IsWord(t)
    requires rest == [] || IsWhitespace(rest[0])
    ensures WordLength(t + rest) == |t|
    decreases |t|
  {
    if |t| > 1 {
      assert (t + rest)[1..] == t[1..] + rest;
      WordLengthOfWord(t[1..], rest);
    } else {
      assert (t + rest)[1..] == rest;
    }
  }

  /** A word followed by a space is the first token. */
  lemma {:induction false} TokensOfWordThenSpace(w: string, rest: string)
    requires IsWord(w)
    ensures Tokens(w + " " + rest) == [w] + Tokens(rest)
  {
    var s := w + " " + rest;
    WordLengthOfWord(w, " " + rest);
    assert s == w + (" " + rest);
    assert s[..|w|] == w;
    assert s[|w|..] == " " + rest;
    TokensSkipsSpace(rest);
  }

  /** A lone word is its own only token. */
  lemma {:induction false} TokensOfWord(w: string)
    requires IsWord(w)
    ensures Tokens(w) == [w]
  {
    WordLengthOfWord(w, []);
    assert w + [] == w;
  }

  /** Extra whitespace after the first word does not lengthen it. */
  lemma {:induction false} WordLengthAppend(a: string, w: string)
    requires WordLength(a) < |a| || w == [] || IsWhitespace(w[0])
    ensures WordLength(a + w) == WordLength(a)
    decreases |a|
  {
    if a == [] {
      assert a + w == w;
    } else if !IsWhitespace(a[0]) {
      assert (a + w)[1..] == a[1..] + w;
      WordLengthAppend(a[1..], w);
    }
  }

  /** Trailing whitespace adds no token. */
  lemma {:induction false} TokensTrailingWhitespace(a: string, w: string)
    requires AllWhitespace(w)
    ensures Tokens(a + w) == Tokens(a)
    decreases |a| + |w|
  {
    if a == [] {
      assert a + w == w;
      if w != [] {
        assert [] + w[1..] == w[1..];
        TokensTrailingWhitespace([], w[1..]);
      }
    } else if IsWhitespace(a[0]) {
      assert (a + w)[1..] == a[1..] + w;
      TokensTrailingWhitespace(a[1..], w);
    } else {
      var n := WordLength(a);
      WordLengthAppend(a, w);
      assert (a + w)[..n] == a[..n];
      assert (a + w)[n..] == a[n..] + w;
      TokensTrailingWhitespace(a[n..], w);
    }
  }

  /** Leading whitespace adds no token either. */
  lemma {:induction false} TokensOfTrimStart(s: string)
    ensures Tokens(TrimStart(s)) == Tokens(s)
    decreases |s|
  {
    if s != [] && IsWhitespace(s[0]) {
      TokensOfTrimStart(s[1..]);
    }
  }

  /** `trim_end` cuts the text into what it keeps and trailing whitespace. */
  lemma TrimEndSplits(t: string)
    ensures t == TrimEnd(t) + t[|TrimEnd(t)|..]
    ensures AllWhitespace(t[|TrimEnd(t)|..])
  {
    var r := TrimEnd(t);
    var w := t[|r|..];
    forall i | 0 <= i < |w| ensures IsWhitespace(w[i]) {
      assert w[i] == t[|r| + i];
    }
  }

  /** `split_whitespace` sees the same words before and after `trim`. */
  lemma TokensOfTrim(s: string)
    ensures Tokens(Trim(s)) == Tokens(s)
  {
    var t := TrimStart(s);
    TokensOfTrimStart(s);
    TrimEndSplits(t);
    TokensTrailingWhitespace(TrimEnd(t), t[|TrimEnd(t)|..]);
  }

  /** `split_whitespace` undoes joining words with spaces. */
  lemma {:induction false} TokensOfUnwords(ts: seq<string>)
    requires forall t :: t in ts ==> IsWord(t)
    ensures Tokens(Unwords(ts)) == ts
  {
    if |ts| == 0 {
    } else if |ts| == 1 {
      var t := ts[0];
      WordLengthOfWord(t, []);
      assert t + [] == t;
      assert t[|t|..] == [];
      assert t[..|t|] == t;
    } else {
      var t := ts[0];
      var rest := " " + Unwords(ts[1..]);
      assert Unwords(ts) == t + rest;
      WordLengthOfWord(t, rest);
      assert (t + rest)[..|t|] == t;
      assert (t + rest)[|t|..] == rest;
      TokensSkipsSpace(Unwords(ts[1..]));
      TokensOfUnwords(ts[1..]);
      assert ts == [t] + ts[1..];
    }
  }

  // --------------------------------------------------------- split(char)

  /** `str::split(c)`: always at least one piece, empty pieces kept. */
  function Split(s: string, c: char): (r: seq<string>)
    ensures |r| >= 1
    ensures forall p :: p in r ==> c !in p
    decreases |s|
  {
    if c !in s then [s]
    else
      var i := IndexOf(s, c);
      [s[..i]] + Split(s[i + 1..], c)
  }

  /** `[&str]::join` with a one-character separator. */
  function Join(parts: seq<string>, c: char): string {
    if |parts| == 0 then [] else if |parts| == 1 then parts[0] else parts[0] + [c] + Join(parts[1..], c)
  }

  /** Joining the pieces of a split gives back the text. */
  lemma {:induction false} JoinOfSplit(s: string, c: char)
    ensures Join(Split(s, c), c) == s
    decreases |s|
  {
    if c in s {
      var i := IndexOf(s, c);
      JoinOfSplit(s[i + 1..], c);
      JoinCons(s[..i], Split(s[i + 1..], c), c);
      assert s == s[..i] + [c] + s[i + 1..];
    }
  }

  /** Splitting at `c` recovers pieces that were joined with `c`. */
  lemma {:induction false} SplitOfJoin(parts: seq<string>, c: char)
    requires |parts| >= 1
    requires forall p :: p in parts ==> c !in p
    ensures Split(Join(parts, c), c) == parts
  {
    if |parts| > 1 {
      var p := parts[0];
      assert Join(parts, c) == p + [c] + Join(parts[1..], c);
      IndexOfAfter(p, c, Join(parts[1..], c));
      SplitOfJoin(parts[1..], c);
      assert parts == [p] + parts[1..];
    }
  }

  /** Three `c`-free pieces joined by `c` split back into those pieces. */
  lemma SplitOfThree(x: string, y: string, z: string, c: char)
    requires c !in x && c !in y && c !in z
    ensures Split(x + [c] + (y + [c] + z), c) == [x, y, z]
  {
    var t := y + [c] + z;
    IndexOfAfter(y, c, z);
    assert Split(t, c) == [y] + Split(z, c);
    IndexOfAfter(x, c, t);
    assert Split(x + [c] + t, c) == [x] + Split(t, c);
  }

  // --------------------------------------------------------------- lines

  /** The `\r` of a `\r\n` terminator, which `lines` also removes. */
  function StripCarriageReturn(line: string): (r: string)
    ensures '\n' in r ==> '\n' in line
  {
    if |line| > 0 && line[|line| - 1] == '\r' then line[..|line| - 1] else line
  }

  /** `str::lines` (and `BufRead::lines` on valid UTF-8): split after each
      `\n`, drop the terminator and a `\r` before it, and yield no empty
      line after a final `\n`. */
  function Lines(s: string): (r: seq<string>)
    ensures forall l :: l in r ==> '\n' !in l
    decreases |s|
  {
    if s == [] then []
    else if '\n' !in s then [s]
    else
      var i := IndexOf(s, '\n');
      [StripCarriageReturn(s[..i])] + Lines(s[i + 1..])
  }

  /** One line per `\n`, plus one for an unterminated last line. */
  lemma {:induction false} LinesCount(s: string)
    ensures |Lines(s)| == Count(s, '\n') + (if s != [] && s[|s| - 1] != '\n' then 1 else 0)
    decreases |s|
  {
    if s == [] {
    } else if '\n' !in s {
      CountAbsent(s, '\n');
    } else {
      var i := IndexOf(s, '\n');
      LinesCount(s[i + 1..]);
      CountAround(s, i, '\n');
      if s[i + 1..] != [] {
        assert s[|s| - 1] == s[i + 1..][|s[i + 1..]| - 1];
      }
    }
  }

  /** An occurrence at `i` adds one to the occurrences on either side of it. */
  lemma CountAround(s: string, i: nat, c: char)
    requires i < |s| && s[i] == c && c !in s[..i]
    ensures Count(s, c) == 1 + Count(s[i + 1..], c)
  {
    assert s == s[..i] + [s[i]] + s[i + 1..];
    CountAbsent(s[..i], c);
    CountAppend(s[..i] + [s[i]], s[i + 1..], c);
    CountAppend(s[..i], [s[i]], c);
    assert Count([s[i]], c) == 1 by { assert [s[i]][1..] == []; }
  }

  /** Text has no lines exactly when it is empty. */
  lemma NoLinesIffEmpty(s: string)
    ensures |Lines(s)| == 0 <==> s == []
  {
  }

  /** `lines` undoes joining lines with `\n` (no line may itself end in `\r`,
      and a final empty line would be swallowed). */
  lemma {:induction false} LinesOfJoin(ls: seq<string>)
    requires forall l :: l in ls ==> '\n' !in l && (l == [] || l[|l| - 1] != '\r')
    requires |ls| == 0 || ls[|ls| - 1] != []
    ensures Lines(Join(ls, '\n')) == ls
  {
    if |ls| == 1 {
    } else if |ls| > 1 {
      var l := ls[0];
      assert Join(ls, '\n') == l + ['\n'] + Join(ls[1..], '\n');
      IndexOfAfter(l, '\n', Join(ls[1..], '\n'));
      assert l in ls;
      LinesOfJoin(ls[1..]);
      assert ls == [l] + ls[1..];
    }
  }

  /** The `\n` a text ends with, if any. */
  function FinalNewline(s: string): string {
    if s != [] && s[|s| - 1] == '\n' then "\n" else []
  }

  /** Without `\r`, joining the lines with `\n` gives the text back, up to
      its final terminator. */
  lemma {:induction false} JoinOfLines(s: string)
    requires '\r' !in s
    ensures Join(Lines(s), '\n') + FinalNewline(s) == s
    decreases |s|
  {
    if s == [] {
    } else if '\n' !in s {
      assert s[|s| - 1] in s;
    } else {
      var i := IndexOf(s, '\n');
      if i + 1 < |s| {
        AbsentFromSuffix(s, '\r', i + 1);
        JoinOfLines(s[i + 1..]);
      }
      if i > 0 { assert s[i - 1] in s; }
      JoinOfLinesStep(s, i);
    }
  }

  /** The inductive step of `JoinOfLines`: the text after the first `\n`
      rebuilds itself, so the whole text does. */
  lemma JoinOfLinesStep(s: string, i: nat)
    requires '\n' in s && i == IndexOf(s, '\n')
    requires i == 0 || s[i - 1] != '\r'
    requires i + 1 < |s| ==> Join(Lines(s[i + 1..]), '\n') + FinalNewline(s[i + 1..]) == s[i + 1..]
    ensures Join(Lines(s), '\n') + FinalNewline(s) == s
  {
    var head, rest := s[..i], s[i + 1..];
    LinesAtNewline(s, i);
    if rest == [] {
      assert Lines(s) == [head];
      LastLine(s, i);
    } else {
      assert FinalNewline(s) == FinalNewline(rest) by { FinalNewlineOfSuffix(s, i + 1); }
      assert |Lines(rest)| > 0 by { NoLinesIffEmpty(rest); }
      JoinAfterLine(s, i, Lines(rest), FinalNewline(rest));
    }
  }

  /** A first line that does not end in `\r` ends at the first `\n`, and
      the rest of the text supplies the remaining lines. */
  lemma LinesAtNewline(s: string, i: nat)
    requires '\n' in s && i == IndexOf(s, '\n')
    requires i == 0 || s[i - 1] != '\r'
    ensures Lines(s) == [s[..i]] + Lines(s[i + 1..])
  {
    assert StripCarriageReturn(s[..i]) == s[..i] by {
      if i > 0 { assert s[..i][i - 1] == s[i - 1]; }
    }
  }

  /** A non-empty suffix ends the way the whole text ends. */
  lemma FinalNewlineOfSuffix(s: string, j: nat)
    requires j < |s|
    ensures FinalNewline(s) == FinalNewline(s[j..])
  {
    assert s[|s| - 1] == s[j..][|s| - j - 1];
  }

  lemma AbsentFromSuffix(s: string, c: char, j: nat)
    requires c !in s && j <= |s|
    ensures c !in s[j..]
  {
    forall k | 0 <= k < |s| - j ensures s[j..][k] != c { assert s[j..][k] == s[j + k]; }
  }

  /** Text whose only `\n` is its last character is its first line and that
      terminator. */
  lemma LastLine(s: string, i: nat)
    requires i + 1 == |s| && s[i] == '\n'
    ensures s[..i] + FinalNewline(s) == s
  {
    assert s == s[..i] + [s[i]];
  }

  /** Putting a line and `\n` in front of joined lines puts them in front of
      the text those lines rebuild. */
  lemma JoinAfterLine(s: string, i: nat, ls: seq<string>, tail: string)
    requires i < |s| && s[i] == '\n'
    requires |ls| > 0 && Join(ls, '\n') + tail == s[i + 1..]
    ensures Join([s[..i]] + ls, '\n') + tail == s
  {
    JoinCons(s[..i], ls, '\n');
    assert s == s[..i] + ['\n'] + s[i + 1..];
  }

  lemma JoinCons(p: string, ps: seq<string>, c: char)
    requires |ps| > 0
    ensures Join([p] + ps, c) == p + [c] + Join(ps, c)
  {
    assert ([p] + ps)[1..] == ps;
  }

  /** `BufRead::read_line` on a whole file: the text up to and including
      the first `\n`, or all of it. */
  function FirstLine(s: string): (r: string)
    ensures StartsWith(s, r)
    ensures '\n' in s ==> |r| > 0 && r[|r| - 1] == '\n'
    ensures '\n' !in s ==> r == s
    ensures forall k :: 0 <= k < |r| - 1 ==> r[k] != '\n'
  {
    if '\n' in s then s[..IndexOf(s, '\n') + 1] else s
  }

  /** What `read_line` returns is the first of the `lines`, followed by its
      terminator (`\n` or `\r\n`) when there is one. */
  lemma FirstLineIsFirstOfLines(s: string)
    requires s != []
    ensures exists w :: AllWhitespace(w) && FirstLine(s) == Lines(s)[0] + w
  {
    if '\n' in s {
      var i := IndexOf(s, '\n');
      var l := StripCarriageReturn(s[..i]);
      var w := s[|l|..i + 1];
      assert FirstLine(s) == l + w;
      assert AllWhitespace(w);
    } else {
      assert FirstLine(s) == Lines(s)[0] + [];
    }
  }

  /** So both see the same whitespace-separated fields. */
  lemma TokensOfFirstLine(s: string)
    requires s != []
    ensures Tokens(FirstLine(s)) == Tokens(Lines(s)[0])
  {
    FirstLineIsFirstOfLines(s);
    var w :| AllWhitespace(w) && FirstLine(s) == Lines(s)[0] + w;
    TokensTrailingWhitespace(Lines(s)[0], w);
  }
}
