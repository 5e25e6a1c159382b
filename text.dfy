/** The Python string built-ins the services rely on: whitespace, strip,
    replace, split and join, lower, title, find, and decimal rendering. */
module Text {

  /** Python's str.isspace() on one character; the regex class \s matches the same set. */
  predicate IsSpace(c: char)
  {
    var n := c as int;
    n == 0x20 || 0x09 <= n <= 0x0D || 0x1C <= n <= 0x1F || n == 0x85 || n == 0xA0
    || n == 0x1680 || 0x2000 <= n <= 0x200A || n == 0x2028 || n == 0x2029
    || n == 0x202F || n == 0x205F || n == 0x3000
  }

  predicate IsAsciiLetter(c: char) { 'a' <= c <= 'z' || 'A' <= c <= 'Z' }

  predicate IsDigit(c: char) { '0' <= c <= '9' }

  predicate StartsWith(s: string, p: string) { |p| <= |s| && s[..|p|] == p }

  predicate EndsWith(s: string, p: string) { |p| <= |s| && s[|s| - |p|..] == p }

  /** p occurs in s starting at position i. */
  predicate OccursAt(s: string, p: string, i: int)
  {
    0 <= i && i + |p| <= |s| && s[i..i + |p|] == p
  }

  /** Python's `p in s` on strings. */
  predicate Contains(s: string, p: string)
  {
    exists i :: 0 <= i <= |s| && OccursAt(s, p, i)
  }

  lemma OccursInTail(s: string, p: string, i: int)
    requires s != [] && OccursAt(s[1..], p, i)
    ensures OccursAt(s, p, i + 1)
  {
    assert s[i + 1..i + 1 + |p|] == s[1..][i..i + |p|];
  }

  /** The middle piece of a concatenation occurs after the first piece. */
  lemma OccursMiddle(a: string, m: string, b: string)
    ensures OccursAt(a + m + b, m, |a|)
  {
    assert (a + m + b)[|a|..|a| + |m|] == m;
  }

  /** An occurrence inside an occurrence is an occurrence. */
  lemma OccursTrans(s: string, p: string, q: string, i: int, j: int)
    requires OccursAt(s, p, i) && OccursAt(p, q, j)
    ensures OccursAt(s, q, i + j)
  {
    forall k | 0 <= k < |q| ensures s[i + j..i + j + |q|][k] == q[k] {
      assert q[k] == p[j..j + |q|][k] == p[j + k];
      assert p[j + k] == s[i..i + |p|][j + k] == s[i + j + k];
    }
    assert s[i + j..i + j + |q|] == q;
  }

  // ---------------------------------------------------------------- strip

  /** Length of the longest prefix of s made of characters `drop` accepts. */
  function LeadingRun(s: string, drop: char -> bool): (n: nat)
    ensures n <= |s|
    ensures forall i :: 0 <= i < n ==> drop(s[i])
    ensures n < |s| ==> !drop(s[n])
  {
    if s != [] && drop(s[0]) then 1 + LeadingRun(s[1..], drop) else 0
  }

  /** Length of the longest suffix of s made of characters `drop` accepts. */
  function TrailingRun(s: string, drop: char -> bool): (n: nat)
    ensures n <= |s|
    ensures forall i :: |s| - n <= i < |s| ==> drop(s[i])
    ensures n < |s| ==> !drop(s[|s| - n - 1])
  {
    if s != [] && drop(s[|s| - 1]) then 1 + TrailingRun(s[..|s| - 1], drop) else 0
  }

  /** Python's str.strip: drop the accepted characters at both ends. The result
      is the slice of s that starts after the leading run, and everything cut
      off on either side is accepted by `drop`. */
  function StripBy(s: string, drop: char -> bool): (r: string)
    ensures LeadingRun(s, drop) + |r| <= |s|
    ensures r == s[LeadingRun(s, drop)..LeadingRun(s, drop) + |r|]
    ensures r != [] ==> !drop(r[0]) && !drop(r[|r| - 1])
  {
    var t := s[LeadingRun(s, drop)..];
    t[..|t| - TrailingRun(t, drop)]
  }

  /** Python's s.strip() (no argument). */
  function Strip(s: string): (r: string)
    ensures Trimmed(r)
    ensures |r| <= |s|
  {
    StripBy(s, IsSpace)
  }

  /** The character class {c}, as a function value. */
  function Is(c: char): char -> bool
  {
    x => x == c
  }

  /** Python's s.strip(c) for a one-character argument. */
  function StripChar(s: string, c: char): (r: string)
    ensures r != [] ==> r[0] != c && r[|r| - 1] != c
  {
    StripBy(s, Is(c))
  }

  /** Whatever occurs in the stripped text occurs in the text. */
  lemma StripContains(s: string, p: string)
    requires Contains(Strip(s), p)
    ensures Contains(s, p)
  {
    var r := Strip(s);
    var i :| 0 <= i <= |r| && OccursAt(r, p, i);
    OccursTrans(s, r, p, LeadingRun(s, IsSpace), i);
  }

  /** A string is trimmed when it has no whitespace at either end. */
  predicate Trimmed(s: string)
  {
    s == [] || (!IsSpace(s[0]) && !IsSpace(s[|s| - 1]))
  }

  /** A leading run that starts with characters drop accepts. */
  lemma {:induction false} LeadingRunAppend(p: string, s: string, drop: char -> bool)
    requires forall i :: 0 <= i < |p| ==> drop(p[i])
    ensures LeadingRun(p + s, drop) == |p| + LeadingRun(s, drop)
    decreases |p|
  {
    if p != [] {
      assert (p + s)[0] == p[0] && drop(p[0]);
      assert (p + s)[1..] == p[1..] + s;
      assert forall i :: 0 <= i < |p[1..]| ==> p[1..][i] == p[i + 1];
      LeadingRunAppend(p[1..], s, drop);
      assert LeadingRun(p + s, drop) == 1 + LeadingRun((p + s)[1..], drop);
    } else {
      assert p + s == s;
    }
  }

  /** A trailing run that ends with characters drop accepts. */
  lemma {:induction false} TrailingRunAppend(s: string, q: string, drop: char -> bool)
    requires forall i :: 0 <= i < |q| ==> drop(q[i])
    ensures TrailingRun(s + q, drop) == |q| + TrailingRun(s, drop)
    decreases |q|
  {
    if q != [] {
      assert (s + q)[|s + q| - 1] == q[|q| - 1] && drop(q[|q| - 1]);
      assert (s + q)[..|s + q| - 1] == s + q[..|q| - 1];
      assert forall i :: 0 <= i < |q[..|q| - 1]| ==> q[..|q| - 1][i] == q[i];
      TrailingRunAppend(s, q[..|q| - 1], drop);
      assert TrailingRun(s + q, drop) == 1 + TrailingRun((s + q)[..|s + q| - 1], drop);
    } else {
      assert s + q == s;
    }
  }

  /** Stripping removes exactly the droppable padding around a core that
      starts and ends with a kept character. */
  lemma StripExact(p: string, m: string, q: string, drop: char -> bool)
    requires forall i :: 0 <= i < |p| ==> drop(p[i])
    requires forall i :: 0 <= i < |q| ==> drop(q[i])
    requires m != [] && !drop(m[0]) && !drop(m[|m| - 1])
    ensures StripBy(p + m + q, drop) == m
  {
    var s := p + m + q;
    assert s == p + (m + q);
    LeadingRunAppend(p, m + q, drop);
    assert LeadingRun(m + q, drop) == 0;
    assert s[|p|..] == m + q;
    TrailingRunAppend(m, q, drop);
    assert TrailingRun(m, drop) == 0;
  }

  lemma StripOfTrimmed(s: string)
    requires Trimmed(s)
    ensures Strip(s) == s
  {
    assert LeadingRun(s, IsSpace) == 0;
    assert TrailingRun(s, IsSpace) == 0;
  }

  // -------------------------------------------------------------- replace

  /** Python's s.replace(pat, rep): scan left to right and replace every
      non-overlapping occurrence of pat. */
  function Replace(s: string, pat: string, rep: string): (r: string)
    requires pat != []
    decreases |s|
  {
    if |s| < |pat| then s
    else if s[..|pat|] == pat then rep + Replace(s[|pat|..], pat, rep)
    else [s[0]] + Replace(s[1..], pat, rep)
  }

  /** Replacing a pattern that does not occur changes nothing. */
  lemma {:induction false} ReplaceAbsent(s: string, pat: string, rep: string)
    requires pat != [] && !Contains(s, pat)
    ensures Replace(s, pat, rep) == s
    decreases |s|
  {
    if |s| >= |pat| {
      assert !OccursAt(s, pat, 0);
      assert s[..|pat|] != pat;
      if Contains(s[1..], pat) {
        var i :| OccursAt(s[1..], pat, i);
        OccursInTail(s, pat, i);
        assert false;
      }
      ReplaceAbsent(s[1..], pat, rep);
      assert s == [s[0]] + s[1..];
    }
  }

  /** Removing a character with replace(c, "") leaves none of it behind. */
  lemma {:induction false} RemoveCharGone(s: string, c: char)
    ensures c !in Replace(s, [c], [])
    decreases |s|
  {
    if |s| >= 1 {
      RemoveCharGone(s[1..], c);
    }
  }

  /** Replacing a character by itself changes nothing. */
  lemma {:induction false} ReplaceSame(s: string, c: char)
    ensures Replace(s, [c], [c]) == s
    decreases |s|
  {
    if |s| >= 1 {
      ReplaceSame(s[1..], c);
      assert s == [s[0]] + s[1..];
    }
  }

  /** A pattern without a newline that occurs in neither line does not occur
      in the two lines, each followed by a newline. */
  lemma NotAcrossLines(a: string, b: string, p: string)
    requires '\n' !in p && !Contains(a, p) && !Contains(b, p)
    ensures !Contains(a + "\n" + b + "\n", p)
  {
    var s := a + "\n" + b + "\n";
    var e := |a| + 1 + |b|;
    assert p != [] by {
      if p == [] {
        assert OccursAt(a, p, 0);
      }
    }
    assert s[|a| + 1..e] == b;
    forall i | 0 <= i <= |s| ensures !OccursAt(s, p, i) {
      if i + |p| <= |s| {
        var w := s[i..i + |p|];
        if i + |p| <= |a| {
          assert w == a[i..i + |p|];
          assert !OccursAt(a, p, i);
        } else if i <= |a| {
          assert w[|a| - i] == '\n';
        } else if i + |p| <= e {
          assert w == s[|a| + 1..e][i - |a| - 1..i - |a| - 1 + |p|];
          assert !OccursAt(b, p, i - |a| - 1);
        } else {
          assert w[e - i] == '\n';
        }
      }
    }
  }

  /** A character the text lacks does not occur in it as a one-character pattern. */
  lemma CharAbsent(s: string, c: char)
    requires c !in s
    ensures !Contains(s, [c])
  {
    forall i | 0 <= i <= |s| ensures !OccursAt(s, [c], i) {
      if i < |s| {
        assert s[i..i + 1][0] == s[i];
      }
    }
  }

  /** Stripping keeps a core that starts and ends with non-whitespace, and
      keeps a piece of the padding on either side of it. */
  lemma StripAround(pre: string, m: string, post: string) returns (i: nat, j: nat)
    requires m != [] && !IsSpace(m[0]) && !IsSpace(m[|m| - 1])
    ensures i <= |pre| && j <= |post|
    ensures Strip(pre + m + post) == pre[i..] + m + post[..j]
  {
    var x := pre + m + post;
    var l := LeadingRun(x, IsSpace);
    assert x[|pre|] == m[0];
    assert l <= |pre|;
    var t := x[l..];
    var n := TrailingRun(t, IsSpace);
    assert t[|t| - |post| - 1] == m[|m| - 1];
    assert n <= |post|;
    assert Strip(x) == t[..|t| - n];
    assert t == (pre[l..] + m) + post;
    TakeAppend(pre[l..] + m, post, |post| - n);
    i, j := l, |post| - n;
  }

  /** A prefix that reaches into the second part keeps the first whole. */
  lemma TakeAppend(a: string, b: string, k: nat)
    requires k <= |b|
    ensures (a + b)[..|a| + k] == a + b[..k]
  {
  }

  /** Replacing a character by text without it leaves none of it behind. */
  lemma {:induction false} ReplaceCharGone(s: string, c: char, rep: string)
    requires c !in rep
    ensures c !in Replace(s, [c], rep)
    decreases |s|
  {
    if |s| >= 1 {
      ReplaceCharGone(s[1..], c, rep);
    }
  }

  /** A character found neither in the text nor in the replacement is not in
      the result. */
  lemma {:induction false} ReplaceKeepsOut(s: string, pat: string, rep: string, c: char)
    requires pat != [] && c !in s && c !in rep
    ensures c !in Replace(s, pat, rep)
    decreases |s|
  {
    if |s| >= |pat| {
      if s[..|pat|] == pat {
        ReplaceKeepsOut(s[|pat|..], pat, rep, c);
      } else {
        ReplaceKeepsOut(s[1..], pat, rep, c);
      }
    }
  }

  /** Stripping never adds a character. */
  lemma StripKeepsOut(s: string, c: char)
    requires c !in s
    ensures c !in Strip(s)
  {
    var r := Strip(s);
    var a := LeadingRun(s, IsSpace);
    assert r == s[a..a + |r|];
    forall i | 0 <= i < |r| ensures r[i] != c {
      assert r[i] == s[a + i];
    }
  }

  /** Removing a character commutes with concatenation around one copy of it. */
  lemma {:induction false} RemoveCharAround(a: string, b: string, c: char)
    ensures Replace(a + [c] + b, [c], []) == Replace(a, [c], []) + Replace(b, [c], [])
    decreases |a|
  {
    if a == [] {
      assert a + [c] + b == [c] + b;
      assert ([c] + b)[..1] == [c];
      assert ([c] + b)[1..] == b;
    } else {
      var s := a + [c] + b;
      assert s[1..] == a[1..] + [c] + b;
      assert s[0] == a[0];
      RemoveCharAround(a[1..], b, c);
      if a[0] == c {
        assert s[..1] == [c];
        assert a[..1] == [c];
      } else {
        assert s[..1] != [c];
        assert a[..1] != [c];
      }
    }
  }

  // ---------------------------------------------------------- split, join

  /** Python's s.split(sep) for a one-character separator. */
  function Split(s: string, sep: char): (parts: seq<string>)
    ensures |parts| >= 1
    ensures forall i :: 0 <= i < |parts| ==> sep !in parts[i]
    decreases |s|
  {
    if s == [] then [[]]
    else
      var rest := Split(s[1..], sep);
      if s[0] == sep then [[]] + rest
      else [[s[0]] + rest[0]] + rest[1..]
  }

  /** Python's sep.join(parts). */
  function Join(parts: seq<string>, sep: string): (s: string)
  {
    if parts == [] then []
    else if |parts| == 1 then parts[0]
    else parts[0] + sep + Join(parts[1..], sep)
  }

  /** Joining the pieces of a split with the same separator gives back the string. */
  lemma {:induction false} JoinSplit(s: string, sep: char)
    ensures Join(Split(s, sep), [sep]) == s
    decreases |s|
  {
    if s != [] {
      var rest := Split(s[1..], sep);
      JoinSplit(s[1..], sep);
      if s[0] == sep {
        assert Join([[]] + rest, [sep]) == [] + [sep] + Join(rest, [sep]);
      } else {
        var parts := [[s[0]] + rest[0]] + rest[1..];
        if |rest| == 1 {
          assert Join(rest, [sep]) == rest[0];
        } else {
          assert Join(rest, [sep]) == rest[0] + [sep] + Join(rest[1..], [sep]);
          assert parts[1..] == rest[1..];
        }
      }
    }
  }

  /** Splitting a join of separator-free pieces gives back the pieces. */
  lemma {:induction false} SplitJoin(parts: seq<string>, sep: char)
    requires |parts| >= 1
    requires forall i :: 0 <= i < |parts| ==> sep !in parts[i]
    ensures Split(Join(parts, [sep]), sep) == parts
    decreases |parts|, |parts[0]|
  {
    var p := parts[0];
    if p == [] {
      if |parts| > 1 {
        SplitJoin(parts[1..], sep);
        var j := Join(parts, [sep]);
        assert j == [sep] + Join(parts[1..], [sep]);
        assert j[1..] == Join(parts[1..], [sep]);
        assert [[]] + parts[1..] == parts;
      }
    } else {
      var tailParts := [p[1..]] + parts[1..];
      forall i | 0 <= i < |tailParts| ensures sep !in tailParts[i] {
        if i == 0 {
          assert forall k :: 0 <= k < |p[1..]| ==> p[1..][k] == p[k + 1];
        } else {
          assert tailParts[i] == parts[i];
        }
      }
      SplitJoin(tailParts, sep);
      var j := Join(parts, [sep]);
      if |parts| == 1 {
        assert j == p;
        assert Join(tailParts, [sep]) == p[1..];
      } else {
        assert j == p + [sep] + Join(parts[1..], [sep]);
        assert Join(tailParts, [sep]) == p[1..] + [sep] + Join(parts[1..], [sep]);
        assert j[1..] == Join(tailParts, [sep]);
      }
      assert j[0] == p[0];
      assert j[1..] == Join(tailParts, [sep]);
      assert [p[0]] + p[1..] == p;
      assert [p] + parts[1..] == parts;
    }
  }

  /** Joining two non-empty lists of pieces puts one separator between them. */
  lemma {:induction false} JoinAppend(a: seq<string>, b: seq<string>, sep: string)
    requires a != [] && b != []
    ensures Join(a + b, sep) == Join(a, sep) + sep + Join(b, sep)
    decreases |a|
  {
    if |a| == 1 {
      assert (a + b)[1..] == b;
    } else {
      assert (a + b)[1..] == a[1..] + b;
      JoinAppend(a[1..], b, sep);
    }
  }

  /** Every piece of a join is a substring of the joined text. */
  lemma {:induction false} JoinContains(parts: seq<string>, sep: string, k: nat)
    requires k < |parts|
    ensures Contains(Join(parts, sep), parts[k])
    decreases |parts|
  {
    var j := Join(parts, sep);
    if |parts| == 1 {
      assert OccursAt(j, parts[0], 0);
    } else if k == 0 {
      assert j[..|parts[0]|] == parts[0];
      assert OccursAt(j, parts[0], 0);
    } else {
      JoinContains(parts[1..], sep, k - 1);
      assert parts[1..][k - 1] == parts[k];
      var i :| 0 <= i <= |Join(parts[1..], sep)| && OccursAt(Join(parts[1..], sep), parts[k], i);
      var off := |parts[0]| + |sep|;
      assert j == (parts[0] + sep) + Join(parts[1..], sep);
      assert j[off + i..off + i + |parts[k]|] == Join(parts[1..], sep)[i..i + |parts[k]|];
      assert OccursAt(j, parts[k], off + i);
    }
  }

  // ----------------------------------------------------------- case maps

  function LowerChar(c: char): char
  {
    if 'A' <= c <= 'Z' then (c as int + 32) as char else c
  }

  function UpperChar(c: char): char
  {
    if 'a' <= c <= 'z' then (c as int - 32) as char else c
  }

  /** Python's s.lower(), on ASCII letters. */
  function Lower(s: string): (r: string)
    ensures |r| == |s|
    ensures forall i :: 0 <= i < |s| ==> r[i] == LowerChar(s[i])
  {
    seq(|s|, i requires 0 <= i < |s| => LowerChar(s[i]))
  }

  /** Python's s.title(), on ASCII letters: a letter is upper-cased when the
      character before it is not a letter (or it is first), and lower-cased
      otherwise; other characters are kept. */
  function Title(s: string): (r: string)
  {
    TitleFrom(s, false)
  }

  function TitleFrom(s: string, prevCased: bool): (r: string)
    ensures |r| == |s|
  {
    if s == [] then []
    else [if prevCased then LowerChar(s[0]) else UpperChar(s[0])] + TitleFrom(s[1..], IsAsciiLetter(s[0]))
  }

  /** What title-casing does at each position. */
  lemma {:induction false} TitleAt(s: string, prevCased: bool, i: nat)
    requires i < |s|
    ensures var cased := if i == 0 then prevCased else IsAsciiLetter(s[i - 1]);
      TitleFrom(s, prevCased)[i] == if cased then LowerChar(s[i]) else UpperChar(s[i])
    decreases i
  {
    if i > 0 {
      TitleAt(s[1..], IsAsciiLetter(s[0]), i - 1);
      if i - 1 > 0 {
        assert s[1..][i - 2] == s[i - 1];
      }
    }
  }

  // ---------------------------------------------------------------- find

  /** Index of the first c in s, or |s| when there is none. */
  function Find(s: string, c: char): (i: nat)
    ensures i <= |s|
    ensures i < |s| ==> s[i] == c
    ensures forall j :: 0 <= j < i ==> s[j] != c
  {
    if s == [] then 0
    else if s[0] == c then 0
    else 1 + Find(s[1..], c)
  }

  /** No c comes before the first one. */
  lemma NotBeforeFind(s: string, c: char)
    ensures c !in s[..Find(s, c)]
  {
    var i := Find(s, c);
    forall k | 0 <= k < i ensures s[..i][k] != c {
      assert s[..i][k] == s[k];
    }
  }

  /** No c comes after the last one. */
  lemma NotAfterRFind(s: string, c: char)
    ensures c !in s[RFind(s, c) + 1..]
  {
    var i := RFind(s, c);
    var t := s[i + 1..];
    forall k | 0 <= k < |t| ensures t[k] != c {
      assert t[k] == s[i + 1 + k];
    }
    assert c !in t;
  }

  /** Find succeeds exactly when the character occurs. */
  lemma FindIn(s: string, c: char)
    ensures Find(s, c) < |s| <==> c in s
  {
    if c in s {
      var k :| 0 <= k < |s| && s[k] == c;
    }
  }

  /** Index of the last c in s, or -1 when there is none. */
  function RFind(s: string, c: char): (i: int)
    ensures -1 <= i < |s|
    ensures i >= 0 ==> s[i] == c
    ensures forall j :: i < j < |s| ==> s[j] != c
  {
    if s == [] then -1
    else if s[|s| - 1] == c then |s| - 1
    else RFind(s[..|s| - 1], c)
  }

  // ------------------------------------------------------------- numbers

  function DigitChar(d: nat): char
    requires d < 10
  {
    ('0' as int + d) as char
  }

  /** Python's str(n) for a natural number. */
  function NatToString(n: nat): (s: string)
    ensures s != []
    ensures forall i :: 0 <= i < |s| ==> IsDigit(s[i])
  {
    if n < 10 then [DigitChar(n)] else NatToString(n / 10) + [DigitChar(n % 10)]
  }

  /** Reads a string of decimal digits as a number. */
  function DigitsValue(s: string): nat
    requires forall i :: 0 <= i < |s| ==> IsDigit(s[i])
  {
    if s == [] then 0
    else
      assert IsDigit(s[|s| - 1]);
      DigitsValue(s[..|s| - 1]) * 10 + (s[|s| - 1] as int - '0' as int) as nat
  }

  /** Rendering a number in decimal and reading it back gives the number. */
  lemma {:induction false} NatToStringRoundTrip(n: nat)
    ensures DigitsValue(NatToString(n)) == n
  {
    if n >= 10 {
      NatToStringRoundTrip(n / 10);
      var s := NatToString(n);
      assert s[..|s| - 1] == NatToString(n / 10);
    }
  }
}
