/**
 * The Python string operations the bot relies on, over `seq<char>`.
 * Case mapping and letter classes are the ASCII ones; whitespace is the
 * full set Python's `str.isspace()` accepts, since `split()` and `strip()`
 * use it.
 */
module Strings {

  // ---------------------------------------------------------------------
  // Character classes

  /** The characters `str.split()` and `str.strip()` treat as whitespace. */
  predicate IsSpace(c: char) {
    c == ' ' || ('\t' <= c <= '\r') || ('\U{1C}' <= c <= '\U{1F}')
    || c == '\U{85}' || c == '\U{A0}' || c == '\U{1680}'
    || ('\U{2000}' <= c <= '\U{200A}') || c == '\U{2028}' || c == '\U{2029}'
    || c == '\U{202F}' || c == '\U{205F}' || c == '\U{3000}'
  }

  predicate IsUpper(c: char) { 'A' <= c <= 'Z' }
  predicate IsLower(c: char) { 'a' <= c <= 'z' }
  predicate IsLetter(c: char) { IsUpper(c) || IsLower(c) }
  predicate IsDigit(c: char) { '0' <= c <= '9' }

  function UpperChar(c: char): char {
    if IsLower(c) then (c as int - 32) as char else c
  }

  function LowerChar(c: char): char {
    if IsUpper(c) then (c as int + 32) as char else c
  }

  // ---------------------------------------------------------------------
  // Case mapping

  /** `s.upper()` */
  function ToUpper(s: string): string {
    seq(|s|, i requires 0 <= i < |s| => UpperChar(s[i]))
  }

  /** `s.lower()` */
  function ToLower(s: string): string {
    seq(|s|, i requires 0 <= i < |s| => LowerChar(s[i]))
  }

  lemma HeadConcat(a: string, b: string)
    requires |a| > 0
    ensures a + b == [a[0]] + (a[1..] + b)
  {
  }

  lemma ToUpperConcat(a: string, b: string)
    ensures ToUpper(a + b) == ToUpper(a) + ToUpper(b)
  {
  }

  lemma ToLowerConcat(a: string, b: string)
    ensures ToLower(a + b) == ToLower(a) + ToLower(b)
  {
  }

  /** Lower-casing twice is lower-casing once. */
  lemma ToLowerIdempotent(s: string)
    ensures ToLower(ToLower(s)) == ToLower(s)
  {
  }

  /** Lower-casing forgets an earlier upper-casing. */
  lemma LowerOfUpper(s: string)
    ensures ToLower(ToUpper(s)) == ToLower(s)
  {
  }

  /** A string without upper-case letters is its own lower-case form. */
  lemma ToLowerNoUpper(s: string)
    requires forall c <- s :: !IsUpper(c)
    ensures ToLower(s) == s
  {
    forall i | 0 <= i < |s|
      ensures ToLower(s)[i] == s[i]
    {
      assert s[i] in s;
    }
  }

  /** A string without letters is its own upper-case form. */
  lemma ToUpperNoLetters(s: string)
    requires forall c <- s :: !IsLetter(c)
    ensures ToUpper(s) == s
  {
    forall i | 0 <= i < |s|
      ensures ToUpper(s)[i] == s[i]
    {
      assert s[i] in s;
    }
  }

  // ---------------------------------------------------------------------
  // Substrings

  /** `k` occurs in `s` starting at index `i`. */
  predicate OccursAt(s: string, k: string, i: int) {
    0 <= i <= |s| - |k| && s[i..i + |k|] == k
  }

  /** Python's `k in s`: `k` occurs contiguously in `s`. */
  predicate Contains(s: string, k: string) {
    exists i | 0 <= i <= |s| - |k| :: OccursAt(s, k, i)
  }

  predicate StartsWith(s: string, p: string) {
    |p| <= |s| && s[..|p|] == p
  }

  predicate EndsWith(s: string, p: string) {
    |p| <= |s| && s[|s| - |p|..] == p
  }

  lemma StartsWithTrans(a: string, b: string, c: string)
    requires StartsWith(a, b) && StartsWith(b, c)
    ensures StartsWith(a, c)
  {
    assert a[..|c|] == a[..|b|][..|c|];
  }

  /** Upper-casing keeps a prefix, upper-cased. */
  lemma ToUpperPrefix(s: string, p: string)
    requires StartsWith(s, p)
    ensures StartsWith(ToUpper(s), ToUpper(p))
  {
    assert s == p + s[|p|..];
    ToUpperConcat(p, s[|p|..]);
  }

  /** Anything that occurs in a part of a string occurs in the string. */
  lemma ContainsInPart(a: string, b: string, k: string)
    requires Contains(a, k) || Contains(b, k)
    ensures Contains(a + b, k)
  {
    if Contains(a, k) {
      var i :| 0 <= i <= |a| - |k| && OccursAt(a, k, i);
      assert (a + b)[i..i + |k|] == a[i..i + |k|];
      assert OccursAt(a + b, k, i);
    } else {
      var i :| 0 <= i <= |b| - |k| && OccursAt(b, k, i);
      assert (a + b)[|a| + i..|a| + i + |k|] == b[i..i + |k|];
      assert OccursAt(a + b, k, |a| + i);
    }
  }

  /**
   * A character put in front of a text free of `k` creates no occurrence
   * of `k` unless the result starts with `k`.
   */
  lemma ConsNoMatch(c: char, r: string, k: string)
    requires !Contains(r, k) && !StartsWith([c] + r, k)
    ensures !Contains([c] + r, k)
  {
    var t := [c] + r;
    forall i | 1 <= i <= |t| - |k|
      ensures !OccursAt(t, k, i)
    {
      assert t[i..i + |k|] == r[i - 1..i - 1 + |k|];
      assert !OccursAt(r, k, i - 1);
    }
    assert !OccursAt(t, k, 0);
  }

  /** A text that starts with `k + x` starts with `k`. */
  lemma StartsWithPrefix(s: string, k: string, x: string)
    ensures StartsWith(s, k + x) ==> StartsWith(s, k)
  {
    if StartsWith(s, k + x) {
      assert s[..|k|] == (k + x)[..|k|] == k;
    }
  }

  /** A text containing `k + x` contains `k`. */
  lemma ContainsPrefix(s: string, k: string, x: string)
    requires Contains(s, k + x)
    ensures Contains(s, k)
  {
    var i :| 0 <= i <= |s| - |k + x| && OccursAt(s, k + x, i);
    assert s[i..i + |k|] == (k + x)[..|k|] == k;
    assert OccursAt(s, k, i);
  }

  /**
   * An occurrence of `k` in `a + b` cannot start inside `a` when no
   * character of `a` is in `k`.
   */
  lemma MatchSkipsPrefix(a: string, b: string, k: string)
    requires |k| > 0 && forall c <- a :: c !in k
    ensures Contains(a + b, k) ==> Contains(b, k)
  {
    var t := a + b;
    forall i | 0 <= i < |a| && i <= |t| - |k|
      ensures !OccursAt(t, k, i)
    {
      assert t[i..i + |k|][0] == t[i] == a[i];
      assert a[i] in a;
    }
    if Contains(t, k) {
      var i :| 0 <= i <= |t| - |k| && OccursAt(t, k, i);
      assert t[i..i + |k|] == b[i - |a|..i - |a| + |k|];
      assert OccursAt(b, k, i - |a|);
    }
  }

  /**
   * If the upper-case letter `c` occurs in `k` but neither `c` nor its
   * lower-case form occurs in `w`, then `k` does not occur in `w.upper()`.
   */
  lemma LacksLetter(w: string, k: string, c: char)
    requires IsUpper(c) && c in k && c !in w && LowerChar(c) !in w
    ensures !Contains(ToUpper(w), k)
  {
    var u := ToUpper(w);
    forall i | 0 <= i <= |u| - |k|
      ensures !OccursAt(u, k, i)
    {
      var j :| 0 <= j < |k| && k[j] == c;
      assert w[i + j] != c && w[i + j] != LowerChar(c);
      assert u[i..i + |k|][j] != c;
    }
  }

  /**
   * An occurrence of `k` in `a + s + b` that lies neither in `a` nor in `b`
   * would have to cover a character of the non-empty `s`; if none of those
   * is in `k`, there is no such occurrence.
   */
  lemma NoMatchAcross(a: string, s: string, b: string, k: string)
    requires !Contains(a, k) && !Contains(b, k)
    requires |s| > 0 && forall c <- s :: c !in k
    ensures !Contains(a + s + b, k)
  {
    var t := a + s + b;
    assert |t| == |a| + |s| + |b|;
    assert |k| > 0 by {
      if |k| == 0 {
        assert OccursAt(a, k, 0);
      }
    }
    forall i | 0 <= i <= |t| - |k|
      ensures !OccursAt(t, k, i)
    {
      if i + |k| <= |a| {
        assert t[i..i + |k|] == a[i..i + |k|];
        assert !OccursAt(a, k, i);
      } else if i >= |a| + |s| {
        var j := i - |a| - |s|;
        assert t[i..i + |k|] == b[j..j + |k|];
        assert !OccursAt(b, k, j);
      } else {
        var p := if i < |a| then |a| else i;
        assert i <= p < i + |k| && |a| <= p < |a| + |s|;
        assert t[p] == s[p - |a|];
        assert s[p - |a|] in s;
        assert t[i..i + |k|][p - i] == t[p];
      }
    }
  }

  // ---------------------------------------------------------------------
  // Joining

  /** `sep.join(parts)` */
  function Join(sep: string, parts: seq<string>): string
    decreases |parts|
  {
    if |parts| == 0 then ""
    else if |parts| == 1 then parts[0]
    else parts[0] + sep + Join(sep, parts[1..])
  }

  // ---------------------------------------------------------------------
  // Stripping

  /** `s.lstrip()` */
  function LStrip(s: string): (r: string)
    ensures |r| <= |s| && r == s[|s| - |r|..]
    ensures |r| > 0 ==> !IsSpace(r[0])
    ensures forall i :: 0 <= i < |s| - |r| ==> IsSpace(s[i])
  {
    if |s| > 0 && IsSpace(s[0]) then LStrip(s[1..]) else s
  }

  /** `s.rstrip()` */
  function RStrip(s: string): (r: string)
    ensures |r| <= |s| && r == s[..|r|]
    ensures |r| > 0 ==> !IsSpace(r[|r| - 1])
    ensures forall i :: |r| <= i < |s| ==> IsSpace(s[i])
  {
    if |s| > 0 && IsSpace(s[|s| - 1]) then RStrip(s[..|s| - 1]) else s
  }

  lemma {:induction false} LStripSpacePrefix(ws: string, s: string)
    requires forall c <- ws :: IsSpace(c)
    ensures LStrip(ws + s) == LStrip(s)
    decreases |ws|
  {
    if |ws| > 0 {
      assert ws[0] in ws;
      assert forall c <- ws[1..] :: c in ws;
      var t := ws + s;
      assert t[0] == ws[0];
      assert t[1..] == ws[1..] + s;
      LStripSpacePrefix(ws[1..], s);
    } else {
      assert ws + s == s;
    }
  }

  /** `s.strip()` */
  function Strip(s: string): string {
    RStrip(LStrip(s))
  }

  /** Trailing whitespace removal keeps a prefix that ends in a non-space. */
  lemma RStripKeepsPrefix(s: string, p: string)
    requires StartsWith(s, p) && |p| > 0 && !IsSpace(p[|p| - 1])
    ensures StartsWith(RStrip(s), p)
  {
    var r := RStrip(s);
    assert s[|p| - 1] == p[|p| - 1];
    assert |p| <= |r|;
    assert r[..|p|] == s[..|p|];
  }

  lemma LStripNoSpace(s: string)
    requires |s| == 0 || !IsSpace(s[0])
    ensures LStrip(s) == s
  {
  }

  lemma RStripNoSpace(s: string)
    requires |s| == 0 || !IsSpace(s[|s| - 1])
    ensures RStrip(s) == s
  {
  }

  /** Whitespace-free at both ends means `strip()` changes nothing. */
  lemma StripNoSpace(s: string)
    requires |s| == 0 || (!IsSpace(s[0]) && !IsSpace(s[|s| - 1]))
    ensures Strip(s) == s
  {
    LStripNoSpace(s);
    RStripNoSpace(s);
  }

  /** `strip()` keeps a contiguous part of its input. */
  lemma StripIsSlice(s: string) returns (i: nat)
    ensures i + |Strip(s)| <= |s| && Strip(s) == s[i..i + |Strip(s)|]
  {
    var l := LStrip(s);
    i := |s| - |l|;
    assert Strip(s) == l[..|Strip(s)|];
  }

  // ---------------------------------------------------------------------
  // Splitting on whitespace

  /** The length of the whitespace-free prefix of `t`. */
  function WordLen(t: string): (n: nat)
    ensures n <= |t|
    ensures forall i :: 0 <= i < n ==> !IsSpace(t[i])
    ensures n < |t| ==> IsSpace(t[n])
  {
    if |t| == 0 || IsSpace(t[0]) then 0 else 1 + WordLen(t[1..])
  }

  /** `s.split()`: the maximal runs of non-whitespace characters, in order. */
  function Split(s: string): (ws: seq<string>)
    ensures forall w <- ws :: |w| > 0 && forall c <- w :: !IsSpace(c)
    decreases |s|
  {
    var t := LStrip(s);
    if |t| == 0 then []
    else
      var n := WordLen(t);
      [t[..n]] + Split(t[n..])
  }

  /** Non-empty and free of whitespace: what `split()` produces. */
  predicate IsWord(w: string) {
    |w| > 0 && forall c <- w :: !IsSpace(c)
  }

  lemma {:induction false} WordLenOfWord(w: string, rest: string)
    requires IsWord(w) && |rest| > 0 && IsSpace(rest[0])
    ensures WordLen(w + rest) == |w|
    decreases |w|
  {
    var t := w + rest;
    assert t[0] == w[0] && w[0] in w;
    assert t[1..] == w[1..] + rest;
    if |w| == 1 {
      assert t[1..] == rest;
    } else {
      forall c | c in w[1..] ensures !IsSpace(c) { assert c in w; }
      WordLenOfWord(w[1..], rest);
    }
  }

  lemma WordLenAll(w: string)
    requires forall i | 0 <= i < |w| :: !IsSpace(w[i])
    ensures WordLen(w) == |w|
    decreases |w|
  {
    if |w| > 0 {
      WordLenAll(w[1..]);
    }
  }

  /** A single word splits into itself. */
  lemma SplitWord(w: string)
    requires |w| > 0 && forall i | 0 <= i < |w| :: !IsSpace(w[i])
    ensures Split(w) == [w]
  {
    LStripNoSpace(w);
    WordLenAll(w);
    assert w[..|w|] == w;
    assert w[|w|..] == "";
    assert Split(w) == [w] + Split("");
  }

  /** `" ".join(ws).split() == ws` for words without whitespace. */
  lemma {:induction false} SplitJoin(ws: seq<string>)
    requires forall w <- ws :: IsWord(w)
    ensures Split(Join(" ", ws)) == ws
    decreases |ws|
  {
    if |ws| == 1 {
      assert ws[0] in ws;
      forall i | 0 <= i < |ws[0]| ensures !IsSpace(ws[0][i]) { assert ws[0][i] in ws[0]; }
      SplitWord(ws[0]);
    } else if |ws| > 1 {
      var w, tail := ws[0], ws[1..];
      assert w in ws && tail[0] in ws;
      assert forall v <- tail :: v in ws;
      assert ws == [w] + tail;
      var rest := Join(" ", tail);
      JoinCons(w, tail);
      JoinFirstChar(tail);
      assert tail[0][0] in tail[0];
      var s := w + " " + rest;
      assert s == w + (" " + rest);
      WordLenOfWord(w, " " + rest);
      assert w[0] in w;
      SplitAtSpace(s, |w|);
      assert s[..|w|] == w && s[|w| + 1..] == rest;
      SplitJoin(tail);
    }
  }

  lemma JoinFirstChar(ws: seq<string>)
    requires |ws| > 0 && |ws[0]| > 0
    ensures |Join(" ", ws)| > 0 && Join(" ", ws)[0] == ws[0][0]
  {
  }

  /** A joined text starts with its first part. */
  lemma JoinStartsWith(sep: string, parts: seq<string>)
    requires |parts| > 0
    ensures StartsWith(Join(sep, parts), parts[0])
  {
    if |parts| > 1 {
      assert Join(sep, parts) == parts[0] + (sep + Join(sep, parts[1..]));
    }
  }

  /** A joined text ends with its last part. */
  lemma {:induction false} JoinEndsWith(sep: string, parts: seq<string>)
    requires |parts| > 0
    ensures EndsWith(Join(sep, parts), parts[|parts| - 1])
    decreases |parts|
  {
    if |parts| > 1 {
      var rest := Join(sep, parts[1..]);
      JoinEndsWith(sep, parts[1..]);
      assert Join(sep, parts) == (parts[0] + sep) + rest;
      assert parts[1..][|parts[1..]| - 1] == parts[|parts| - 1];
    }
  }

  /** With the separator in front, a joined text ends with the separator and its last part. */
  lemma {:induction false} SepJoinEndsWith(sep: string, parts: seq<string>)
    requires |parts| > 0
    ensures EndsWith(sep + Join(sep, parts), sep + parts[|parts| - 1])
    decreases |parts|
  {
    if |parts| > 1 {
      var rest := sep + Join(sep, parts[1..]);
      SepJoinEndsWith(sep, parts[1..]);
      assert sep + Join(sep, parts) == (sep + parts[0]) + rest;
      assert parts[1..][|parts[1..]| - 1] == parts[|parts| - 1];
      EndsWithExtend(sep + parts[0], rest, sep + parts[|parts| - 1]);
    }
  }

  lemma EndsWithExtend(a: string, b: string, c: string)
    requires EndsWith(b, c)
    ensures EndsWith(a + b, c)
  {
    assert (a + b)[|a + b| - |c|..] == b[|b| - |c|..];
  }

  lemma EndsWithAppend(a: string, b: string, c: string)
    requires EndsWith(a, b)
    ensures EndsWith(a + c, b + c)
  {
    assert (a + c)[|a + c| - |b + c|..] == a[|a| - |b|..] + c;
  }

  lemma JoinLastChar(ws: seq<string>)
    requires |ws| > 0 && |ws[|ws| - 1]| > 0
    ensures |Join(" ", ws)| > 0
    ensures Join(" ", ws)[|Join(" ", ws)| - 1] == ws[|ws| - 1][|ws[|ws| - 1]| - 1]
    decreases |ws|
  {
    if |ws| > 1 {
      JoinLastChar(ws[1..]);
    }
  }

  /**
   * A single-spaced text: its only whitespace characters are plain spaces,
   * each between two non-whitespace characters.
   */
  predicate SingleSpaced(s: string) {
    (forall i | 0 <= i < |s| && IsSpace(s[i]) :: s[i] == ' ' && 0 < i < |s| - 1)
    && (forall i, j | 0 <= i < |s| - 1 && j == i + 1 :: !(IsSpace(s[i]) && IsSpace(s[j])))
  }

  lemma {:induction false} JoinSingleSpaced(ws: seq<string>)
    requires forall w <- ws :: IsWord(w)
    ensures SingleSpaced(Join(" ", ws))
    decreases |ws|
  {
    if |ws| == 1 {
      assert ws[0] in ws;
      var w := ws[0];
      forall i | 0 <= i < |w| ensures !IsSpace(w[i]) { assert w[i] in w; }
    } else if |ws| > 1 {
      var w := ws[0];
      assert w in ws;
      assert forall v <- ws[1..] :: v in ws;
      var rest := Join(" ", ws[1..]);
      JoinSingleSpaced(ws[1..]);
      assert ws[1] in ws;
      JoinFirstChar(ws[1..]);
      var s := w + " " + rest;
      forall i | 0 <= i < |w| ensures !IsSpace(s[i]) { assert s[i] == w[i] && w[i] in w; }
      forall i | |w| + 1 <= i < |s| ensures s[i] == rest[i - |w| - 1] { }
      forall i, j | 0 <= i < |s| - 1 && j == i + 1
        ensures !(IsSpace(s[i]) && IsSpace(s[j]))
      {
        if j == |w| + 1 {
          assert s[j] == rest[0];
        } else if j > |w| + 1 {
          assert s[i] == rest[i - |w| - 1];
        }
      }
    }
  }

  /** Appending a non-whitespace character keeps a text single-spaced. */
  lemma AppendNonSpace(s: string, c: char)
    requires SingleSpaced(s) && !IsSpace(c)
    ensures SingleSpaced(s + [c])
  {
    var t := s + [c];
    forall i | 0 <= i < |t| && IsSpace(t[i])
      ensures t[i] == ' ' && 0 < i < |t| - 1
    {
      assert i < |s| && t[i] == s[i];
    }
    forall i, j | 0 <= i < |t| - 1 && j == i + 1
      ensures !(IsSpace(t[i]) && IsSpace(t[j]))
    {
      if j == |s| {
        assert t[j] == c;
      } else {
        assert t[i] == s[i] && t[j] == s[j];
      }
    }
  }

  /** What follows the first space of a single-spaced text is single-spaced. */
  lemma SingleSpacedTail(s: string, n: nat)
    requires SingleSpaced(s) && n < |s| && IsSpace(s[n])
    ensures n + 1 < |s| && !IsSpace(s[n + 1]) && SingleSpaced(s[n + 1..])
  {
    var rest := s[n + 1..];
    forall i | 0 <= i < |rest| ensures rest[i] == s[n + 1 + i] { }
    forall i, j | 0 <= i < |rest| - 1 && j == i + 1
      ensures !(IsSpace(rest[i]) && IsSpace(rest[j]))
    {
      assert rest[i] == s[n + 1 + i] && rest[j] == s[n + 1 + j];
    }
  }

  /** Splitting a single-spaced text at its first space. */
  lemma SplitAtSpace(s: string, n: nat)
    requires |s| > 0 && !IsSpace(s[0]) && n == WordLen(s) && n + 1 < |s|
    requires s[n] == ' ' && !IsSpace(s[n + 1])
    ensures Split(s) == [s[..n]] + Split(s[n + 1..])
  {
    LStripNoSpace(s);
    var rest := s[n + 1..];
    assert s[n..] == " " + rest;
    assert (" " + rest)[1..] == rest;
    LStripNoSpace(rest);
  }

  /** A single-spaced text is the single-space join of its own words. */
  lemma {:induction false} SingleSpacedIsJoin(s: string)
    requires SingleSpaced(s)
    ensures Join(" ", Split(s)) == s
    decreases |s|
  {
    if |s| > 0 {
      assert !IsSpace(s[0]);
      var n := WordLen(s);
      if n == |s| {
        SplitWord(s);
      } else {
        SingleSpacedTail(s, n);
        var w, rest := s[..n], s[n + 1..];
        assert s[n] == ' ';
        SplitAtSpace(s, n);
        SingleSpacedIsJoin(rest);
        SplitNonEmpty(rest);
        var ws := Split(rest);
        JoinCons(w, ws);
        calc {
          Join(" ", Split(s));
          Join(" ", [w] + ws);
          w + " " + Join(" ", ws);
          { CutAt(s, n); }
          s;
        }
      }
    }
  }

  lemma CutAt(s: string, n: nat)
    requires n < |s| && s[n] == ' '
    ensures s == s[..n] + " " + s[n + 1..]
  {
    assert s == s[..n] + s[n..];
    assert s[n..] == [s[n]] + s[n + 1..];
  }

  lemma SplitNonEmpty(s: string)
    requires |s| > 0 && !IsSpace(s[0])
    ensures |Split(s)| > 0
  {
    LStripNoSpace(s);
  }

  lemma JoinCons(w: string, ws: seq<string>)
    requires |ws| > 0
    ensures Join(" ", [w] + ws) == w + " " + Join(" ", ws)
  {
    assert ([w] + ws)[1..] == ws;
  }

  /** A text free of `p` splits into words free of `p`. */
  lemma {:induction false} SplitWordsAvoid(s: string, p: string)
    requires !Contains(s, p)
    ensures forall w <- Split(s) :: !Contains(w, p)
    decreases |s|
  {
    var t := LStrip(s);
    if |t| > 0 {
      NoContainsSlice(s, |s| - |t|, |s|, p);
      assert s[|s| - |t|..|s|] == t;
      var n := WordLen(t);
      NoContainsSlice(t, 0, n, p);
      NoContainsSlice(t, n, |t|, p);
      assert t[0..n] == t[..n] && t[n..|t|] == t[n..];
      SplitWordsAvoid(t[n..], p);
      assert Split(s) == [t[..n]] + Split(t[n..]);
    }
  }

  lemma SliceOfSlice(s: string, i: nat, j: nat, x: nat, m: nat)
    requires i <= j <= |s| && x + m <= j - i
    ensures s[i..j][x..x + m] == s[i + x..i + x + m]
  {
    var a, b := s[i..j][x..x + m], s[i + x..i + x + m];
    forall q | 0 <= q < m ensures a[q] == b[q] {
    }
  }

  /** A slice of a string free of `p` is free of `p`. */
  lemma NoContainsSlice(s: string, i: nat, j: nat, p: string)
    requires i <= j <= |s| && !Contains(s, p)
    ensures !Contains(s[i..j], p)
  {
    forall x | 0 <= x <= (j - i) - |p|
      ensures !OccursAt(s[i..j], p, x)
    {
      SliceOfSlice(s, i, j, x, |p|);
      assert !OccursAt(s, p, i + x);
    }
  }

  /**
   * Joining words with single spaces cannot create an occurrence of a
   * pattern that has no space in it.
   */
  lemma {:induction false} JoinAvoids(ws: seq<string>, p: string)
    requires |p| > 0 && ' ' !in p
    requires forall w <- ws :: !Contains(w, p)
    ensures !Contains(Join(" ", ws), p)
    decreases |ws|
  {
    if |ws| == 1 {
      assert ws[0] in ws;
    } else if |ws| > 1 {
      assert ws[0] in ws;
      assert forall v <- ws[1..] :: v in ws;
      JoinAvoids(ws[1..], p);
      NoMatchAcross(ws[0], " ", Join(" ", ws[1..]), p);
    }
  }

  // ---------------------------------------------------------------------
  // Replacing a pattern

  /**
   * `s.replace(p, n)`: every occurrence of `p`, found scanning left to
   * right without overlaps, becomes `n`.
   */
  function Replace(s: string, p: string, n: string): string
    requires |p| > 0
    decreases |s|
  {
    if |s| == 0 then ""
    else if StartsWith(s, p) then n + Replace(s[|p|..], p, n)
    else [s[0]] + Replace(s[1..], p, n)
  }

  /** `s.replace(p, '')`: every occurrence of `p` is deleted. */
  function RemoveAll(s: string, p: string): string
    requires |p| > 0
  {
    Replace(s, p, "")
  }

  /** A text without any occurrence of `p` is left as it is. */
  lemma {:induction false} ReplaceAbsent(s: string, p: string, n: string)
    requires |p| > 0 && !Contains(s, p)
    ensures Replace(s, p, n) == s
    decreases |s|
  {
    if |s| > 0 {
      assert !OccursAt(s, p, 0);
      NoContainsSlice(s, 1, |s|, p);
      assert s[1..|s|] == s[1..];
      ReplaceAbsent(s[1..], p, n);
      assert s == [s[0]] + s[1..];
    }
  }

  /** Replacing a pattern by itself changes nothing. */
  lemma {:induction false} ReplaceBySelf(s: string, p: string)
    requires |p| > 0
    ensures Replace(s, p, p) == s
    decreases |s|
  {
    if |s| > 0 {
      if StartsWith(s, p) {
        ReplaceBySelf(s[|p|..], p);
        assert s == s[..|p|] + s[|p|..];
      } else {
        ReplaceBySelf(s[1..], p);
        assert s == [s[0]] + s[1..];
      }
    }
  }

  lemma RemoveAllAbsent(s: string, p: string)
    requires |p| > 0 && !Contains(s, p)
    ensures RemoveAll(s, p) == s
  {
    ReplaceAbsent(s, p, "");
  }

  /** Deleting `p` from `p + x` deletes the leading `p`, then works on `x`. */
  lemma RemoveAllLeading(p: string, x: string)
    requires |p| > 0
    ensures RemoveAll(p + x, p) == RemoveAll(x, p)
  {
    assert (p + x)[..|p|] == p;
    assert (p + x)[|p|..] == x;
    assert "" + Replace(x, p, "") == Replace(x, p, "");
  }

  // ---------------------------------------------------------------------
  // Splitting on a separator

  /** The length of the prefix of `t` free of `sep`. */
  function FieldLen(t: string, sep: char): (n: nat)
    ensures n <= |t|
    ensures forall i | 0 <= i < n :: t[i] != sep
    ensures n < |t| ==> t[n] == sep
  {
    if |t| == 0 || t[0] == sep then 0 else 1 + FieldLen(t[1..], sep)
  }

  /**
   * `s.split(sep)` for a one-character separator: the pieces between the
   * separators, empty ones included, so there is always at least one.
   */
  function SplitOn(s: string, sep: char): (parts: seq<string>)
    ensures |parts| > 0
    ensures forall k | 0 <= k < |parts| :: sep !in parts[k]
    decreases |s|
  {
    var n := FieldLen(s, sep);
    assert sep !in s[..n];
    if n == |s| then [s] else [s[..n]] + SplitOn(s[n + 1..], sep)
  }

  /** Joining the pieces with the separator gives back the text. */
  lemma {:induction false} JoinSplitOn(s: string, sep: char)
    ensures Join([sep], SplitOn(s, sep)) == s
    decreases |s|
  {
    var n := FieldLen(s, sep);
    if n < |s| {
      var rest := SplitOn(s[n + 1..], sep);
      JoinSplitOn(s[n + 1..], sep);
      assert ([s[..n]] + rest)[1..] == rest;
      assert s == s[..n] + [sep] + s[n + 1..];
    }
  }

  /** The segments before and after the first separator. */
  lemma SplitOnFirst(a: string, b: string, sep: char)
    requires sep !in a
    ensures SplitOn(a + [sep] + b, sep) == [a] + SplitOn(b, sep)
  {
    var s := a + [sep] + b;
    var n := FieldLen(s, sep);
    assert forall i | 0 <= i < |a| :: s[i] == a[i];
    assert s[|a|] == sep;
    assert n == |a|;
    assert s[..n] == a && s[n + 1..] == b;
  }

  /** A text without the separator is one segment. */
  lemma SplitOnNoSep(a: string, sep: char)
    requires sep !in a
    ensures SplitOn(a, sep) == [a]
  {
    var n := FieldLen(a, sep);
    assert n == |a|;
  }

  /** Splitting pieces joined by the separator gives back the pieces, when none holds the separator. */
  lemma {:induction false} SplitOnJoin(parts: seq<string>, sep: char)
    requires |parts| > 0
    requires forall k | 0 <= k < |parts| :: sep !in parts[k]
    ensures SplitOn(Join([sep], parts), sep) == parts
    decreases |parts|
  {
    if |parts| == 1 {
      SplitOnNoSep(parts[0], sep);
    } else {
      var rest := parts[1..];
      assert forall k | 0 <= k < |rest| :: rest[k] == parts[k + 1];
      SplitOnFirst(parts[0], Join([sep], rest), sep);
      SplitOnJoin(rest, sep);
      assert parts == [parts[0]] + rest;
    }
  }

  // ---------------------------------------------------------------------
  // Title case and letters

  /** A letter after a letter is lower-cased, any other is upper-cased. */
  function TitleChar(afterLetter: bool, c: char): char {
    if afterLetter then LowerChar(c) else UpperChar(c)
  }

  /**
   * `s.title()`: a letter at the start or after a non-letter is
   * upper-cased, a letter after a letter is lower-cased.
   */
  function Title(s: string): string {
    seq(|s|, i requires 0 <= i < |s| => TitleChar(i > 0 && IsLetter(s[i - 1]), s[i]))
  }

  /** Case mapping keeps letters letters and forgets the case it started from. */
  lemma CaseOfChar(c: char)
    ensures IsLetter(LowerChar(c)) == IsLetter(c) && IsLetter(UpperChar(c)) == IsLetter(c)
    ensures UpperChar(LowerChar(c)) == UpperChar(c) && LowerChar(LowerChar(c)) == LowerChar(c)
    ensures LowerChar(UpperChar(c)) == LowerChar(c) && UpperChar(UpperChar(c)) == UpperChar(c)
  {
  }

  /** Title case depends only on the lower-cased text. */
  lemma TitleIgnoresCase(s: string)
    ensures Title(ToLower(s)) == Title(s)
  {
    var l := ToLower(s);
    forall i | 0 <= i < |s|
      ensures Title(l)[i] == Title(s)[i]
    {
      var a := i > 0 && IsLetter(s[i - 1]);
      CaseOfChar(s[i]);
      if i > 0 {
        CaseOfChar(s[i - 1]);
        assert l[i - 1] == LowerChar(s[i - 1]);
      }
      assert Title(l)[i] == TitleChar(a, LowerChar(s[i]));
    }
  }

  /** Title case is kept by another `title()` and forgotten by `lower()`. */
  lemma TitleStable(s: string)
    ensures Title(Title(s)) == Title(s)
    ensures ToLower(Title(s)) == ToLower(s)
  {
    var t := Title(s);
    forall i | 0 <= i < |s|
      ensures Title(t)[i] == t[i] && ToLower(t)[i] == ToLower(s)[i]
    {
      var a := i > 0 && IsLetter(s[i - 1]);
      CaseOfChar(s[i]);
      if i > 0 {
        CaseOfChar(s[i - 1]);
        assert t[i - 1] == TitleChar(i > 1 && IsLetter(s[i - 2]), s[i - 1]);
      }
      assert t[i] == TitleChar(a, s[i]);
    }
  }

  /** `''.join(c for c in s if c.isalpha())`: the letters of `s`, in order. */
  function Letters(s: string): (r: string)
    ensures |r| <= |s|
    ensures forall i | 0 <= i < |r| :: IsLetter(r[i])
    decreases |s|
  {
    if |s| == 0 then ""
    else (if IsLetter(s[0]) then [s[0]] else "") + Letters(s[1..])
  }

  /** A text of letters only is its own letters, and no letter is dropped. */
  lemma {:induction false} LettersSpec(s: string)
    ensures (forall i | 0 <= i < |s| :: IsLetter(s[i])) ==> Letters(s) == s
    ensures forall i | 0 <= i < |s| && IsLetter(s[i]) :: s[i] in Letters(s)
    decreases |s|
  {
    if |s| > 0 {
      LettersSpec(s[1..]);
      assert forall i | 1 <= i < |s| :: s[i] == s[1..][i - 1];
      assert s == [s[0]] + s[1..];
    }
  }

  // ---------------------------------------------------------------------
  // Concatenation and stripping a set of characters

  /** `"".join(parts)`, built left to right as `+=` builds it. */
  function Concat(parts: seq<string>): string
    decreases |parts|
  {
    if |parts| == 0 then "" else Concat(parts[..|parts| - 1]) + parts[|parts| - 1]
  }

  lemma AppendAssoc(a: string, b: string, c: string)
    ensures (a + b) + c == a + (b + c)
  {
  }

  /** Appending one more part appends its text. */
  lemma ConcatSnoc(parts: seq<string>, x: string)
    ensures Concat(parts + [x]) == Concat(parts) + x
  {
    assert (parts + [x])[..|parts|] == parts;
  }

  /** `s.rstrip(cs)`: trailing characters drawn from `cs` are removed. */
  function RStripChars(s: string, cs: string): (r: string)
    ensures |r| <= |s| && r == s[..|r|]
    ensures |r| > 0 ==> r[|r| - 1] !in cs
    ensures forall i | |r| <= i < |s| :: s[i] in cs
    decreases |s|
  {
    if |s| > 0 && s[|s| - 1] in cs then RStripChars(s[..|s| - 1], cs) else s
  }

  /** Stripping the end stops at a character outside the set, so what comes before it is kept. */
  lemma {:induction false} RStripCharsAfter(a: string, b: string, cs: string)
    requires |a| > 0 && a[|a| - 1] !in cs
    ensures RStripChars(a + b, cs) == a + RStripChars(b, cs)
    decreases |b|
  {
    if |b| == 0 {
      assert a + b == a;
    } else {
      assert (a + b)[|a + b| - 1] == b[|b| - 1];
      if b[|b| - 1] in cs {
        assert (a + b)[..|a + b| - 1] == a + b[..|b| - 1];
        RStripCharsAfter(a, b[..|b| - 1], cs);
      }
    }
  }
}
