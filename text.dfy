/** The handful of Python `str` operations the core relies on, defined on
    `seq<char>` with the same edge cases as CPython, and the facts about them
    that the other modules use. */
module Text {

  /** ASCII upper-case letter (the only letters `Lower` folds). */
  predicate IsUpper(c: char) {
    'A' <= c <= 'Z'
  }

  function LowerChar(c: char): char {
    if IsUpper(c) then (c as int + 32) as char else c
  }

  /** `str.lower()`, restricted to ASCII letters. */
  function Lower(s: string): (r: string)
    ensures |r| == |s|
    ensures forall i :: 0 <= i < |r| ==> !IsUpper(r[i])
  {
    seq(|s|, i requires 0 <= i < |s| => LowerChar(s[i]))
  }

  lemma LowerCharFolds(c: char)
    ensures !IsUpper(LowerChar(c))
    ensures LowerChar(LowerChar(c)) == LowerChar(c)
    ensures IsUpper(c) ==> LowerChar(c) != c
  {
  }

  lemma LowerIdempotent(s: string)
    ensures Lower(Lower(s)) == Lower(s)
  {
    forall i | 0 <= i < |s| ensures Lower(Lower(s))[i] == Lower(s)[i] {
      LowerCharFolds(s[i]);
    }
  }

  /** Number of occurrences of `c` in `s`. */
  function Count(s: string, c: char): nat {
    if s == [] then 0 else (if s[0] == c then 1 else 0) + Count(s[1..], c)
  }

  lemma {:induction false} CountAppend(a: string, b: string, c: char)
    ensures Count(a + b, c) == Count(a, c) + Count(b, c)
  {
    if a == [] {
      assert a + b == b;
    } else {
      assert (a + b)[0] == a[0];
      assert (a + b)[1..] == a[1..] + b;
      CountAppend(a[1..], b, c);
    }
  }

  predicate StartsWith(s: string, prefix: string) {
    |prefix| <= |s| && s[..|prefix|] == prefix
  }

  predicate EndsWith(s: string, suffix: string) {
    |suffix| <= |s| && s[|s| - |suffix|..] == suffix
  }

  /** `s.replace(c, t)` for a one-character pattern: every `c` is replaced by
      `t` in a single left-to-right pass; nothing in `t` is looked at again. */
  function ReplaceChar(s: string, c: char, t: string): string
    decreases |s|
  {
    if s == [] then [] else (if s[0] == c then t else [s[0]]) + ReplaceChar(s[1..], c, t)
  }

  lemma {:induction false} ReplaceAppend(a: string, b: string, c: char, t: string)
    ensures ReplaceChar(a + b, c, t) == ReplaceChar(a, c, t) + ReplaceChar(b, c, t)
  {
    if a == [] {
      assert a + b == b;
    } else {
      assert (a + b)[0] == a[0];
      assert (a + b)[1..] == a[1..] + b;
      ReplaceAppend(a[1..], b, c, t);
    }
  }

  /** One pass: the length grows by `|t| - 1` per occurrence of `c`. */
  lemma {:induction false} ReplaceLength(s: string, c: char, t: string)
    ensures |ReplaceChar(s, c, t)| == |s| + Count(s, c) * (|t| - 1)
  {
    if s != [] {
      ReplaceLength(s[1..], c, t);
    }
  }

  /** A character other than `c` survives at its place relative to the
      replaced prefix. */
  lemma {:induction false} ReplaceKeeps(s: string, c: char, t: string, i: nat)
    requires i < |s| && s[i] != c
    ensures |ReplaceChar(s[..i], c, t)| < |ReplaceChar(s, c, t)|
    ensures ReplaceChar(s, c, t)[|ReplaceChar(s[..i], c, t)|] == s[i]
  {
    var pre, post := s[..i], s[i + 1..];
    assert s == pre + ([s[i]] + post);
    ReplaceAppend(pre, [s[i]] + post, c, t);
    ReplaceAppend([s[i]], post, c, t);
    assert ReplaceChar([s[i]], c, t) == [s[i]] by {
      assert [s[i]][1..] == [];
    }
    assert ReplaceChar(s, c, t) == ReplaceChar(pre, c, t) + ([s[i]] + ReplaceChar(post, c, t));
  }

  /** After the pass, `c` occurs only where `t` put it. */
  lemma {:induction false} ReplaceRemoves(s: string, c: char, t: string)
    requires c !in t
    ensures c !in ReplaceChar(s, c, t)
  {
    if s != [] {
      ReplaceRemoves(s[1..], c, t);
    }
  }

  lemma {:induction false} ReplaceAbsent(s: string, c: char, t: string)
    requires c !in s
    ensures ReplaceChar(s, c, t) == s
  {
    if s != [] {
      ReplaceAbsent(s[1..], c, t);
      assert s == [s[0]] + s[1..];
    }
  }

  /** `str.split(sep)` with an explicit separator: a left-to-right scan that
      cuts at each non-overlapping occurrence; `cur` is the piece being read. */
  function SplitAux(s: string, sep: string, cur: string): (r: seq<string>)
    requires |sep| > 0
    ensures |r| >= 1
    decreases |s|
  {
    if s == [] then [cur]
    else if StartsWith(s, sep) then [cur] + SplitAux(s[|sep|..], sep, [])
    else SplitAux(s[1..], sep, cur + [s[0]])
  }

  function Split(s: string, sep: string): (r: seq<string>)
    requires |sep| > 0
    ensures |r| >= 1
  {
    SplitAux(s, sep, [])
  }

  /** `sep.join(parts)`. */
  function Join(parts: seq<string>, sep: string): string
  {
    if |parts| == 0 then []
    else if |parts| == 1 then parts[0]
    else parts[0] + sep + Join(parts[1..], sep)
  }

  function Last<T>(parts: seq<T>): T
    requires |parts| > 0
  {
    parts[|parts| - 1]
  }

  lemma {:induction false} JoinSplitAux(s: string, sep: string, cur: string)
    requires |sep| > 0
    ensures Join(SplitAux(s, sep, cur), sep) == cur + s
    decreases |s|
  {
    if s == [] {
    } else if StartsWith(s, sep) {
      var rest := SplitAux(s[|sep|..], sep, []);
      JoinSplitAux(s[|sep|..], sep, []);
      assert ([cur] + rest)[1..] == rest;
      assert s == sep + s[|sep|..];
    } else {
      JoinSplitAux(s[1..], sep, cur + [s[0]]);
      assert s == [s[0]] + s[1..];
    }
  }

  /** Splitting and joining with the same separator gives back the text. */
  lemma JoinSplit(s: string, sep: string)
    requires |sep| > 0
    ensures Join(Split(s, sep), sep) == s
  {
    JoinSplitAux(s, sep, []);
  }

  lemma {:induction false} SplitAuxCharFree(s: string, c: char, cur: string)
    requires c !in cur
    ensures forall p :: p in SplitAux(s, [c], cur) ==> c !in p
    decreases |s|
  {
    if s == [] {
    } else if StartsWith(s, [c]) {
      SplitAuxCharFree(s[1..], c, []);
    } else {
      assert s[0] != c;
      SplitAuxCharFree(s[1..], c, cur + [s[0]]);
    }
  }

  /** No piece of a split on one character contains that character. */
  lemma SplitCharFree(s: string, c: char)
    ensures forall p :: p in Split(s, [c]) ==> c !in p
  {
    SplitAuxCharFree(s, c, []);
  }

  lemma {:induction false} SplitAuxNoSeparator(s: string, c: char, cur: string)
    requires c !in s
    ensures SplitAux(s, [c], cur) == [cur + s]
    decreases |s|
  {
    if s == [] {
      assert cur + s == cur;
    } else {
      assert s[0] != c;
      SplitAuxNoSeparator(s[1..], c, cur + [s[0]]);
      assert cur + [s[0]] + s[1..] == cur + s;
    }
  }

  lemma {:induction false} SplitAuxAtSeparator(a: string, c: char, b: string, cur: string)
    requires c !in a
    ensures SplitAux(a + [c] + b, [c], cur) == [cur + a] + Split(b, [c])
    decreases |a|
  {
    var s := a + [c] + b;
    if a == [] {
      assert s == [c] + b;
      assert StartsWith(s, [c]);
      assert s[1..] == b;
      assert cur + a == cur;
    } else {
      assert s[0] == a[0] && a[0] != c;
      assert !StartsWith(s, [c]);
      assert s[1..] == a[1..] + [c] + b;
      SplitAuxAtSeparator(a[1..], c, b, cur + [a[0]]);
      assert cur + [a[0]] + a[1..] == cur + a;
    }
  }

  lemma {:induction false} ReplaceJoinSplitAux(s: string, c: char, t: string, cur: string)
    requires c !in cur
    ensures Join(SplitAux(s, [c], cur), t) == cur + ReplaceChar(s, c, t)
    decreases |s|
  {
    if s == [] {
    } else if StartsWith(s, [c]) {
      var rest := SplitAux(s[1..], [c], []);
      ReplaceJoinSplitAux(s[1..], c, t, []);
      assert ([cur] + rest)[1..] == rest;
    } else {
      assert s[0] != c;
      ReplaceJoinSplitAux(s[1..], c, t, cur + [s[0]]);
    }
  }

  /** The one-pass definition agrees with `new.join(s.split(old))` on
      one-character patterns. */
  lemma ReplaceIsJoinOfSplit(s: string, c: char, t: string)
    ensures ReplaceChar(s, c, t) == Join(Split(s, [c]), t)
  {
    ReplaceJoinSplitAux(s, c, t, []);
  }

  /** Python's slice `s[0:-n]` for `n > 0`: the text minus its last `n`
      characters, or empty when it is shorter than that. */
  function DropLast(s: string, n: nat): (r: string)
    ensures |s| >= n ==> |r| == |s| - n && s == r + s[|s| - n..]
    ensures |s| < n ==> r == []
  {
    if |s| >= n then s[..|s| - n] else []
  }

  /** Scanning over a stretch where no separator begins only accumulates it. */
  lemma {:induction false} SplitAuxSkip(s: string, sep: string, cur: string, n: nat)
    requires |sep| > 0 && n <= |s|
    requires forall i :: 0 <= i < n ==> !StartsWith(s[i..], sep)
    ensures SplitAux(s, sep, cur) == SplitAux(s[n..], sep, cur + s[..n])
    decreases n
  {
    if n == 0 {
      assert s[n..] == s && cur + s[..n] == cur;
    } else {
      assert s[0..] == s;
      assert !StartsWith(s, sep);
      forall i | 0 <= i < n - 1 ensures !StartsWith(s[1..][i..], sep) {
        assert s[1..][i..] == s[i + 1..];
      }
      SplitAuxSkip(s[1..], sep, cur + [s[0]], n - 1);
      assert s[1..][n - 1..] == s[n..];
      assert cur + [s[0]] + s[1..][..n - 1] == cur + s[..n];
    }
  }

  /** A text in which the separator never begins is a single piece. */
  lemma SplitAuxNoMatch(s: string, sep: string, cur: string)
    requires |sep| > 0
    requires forall i :: 0 <= i < |s| ==> !StartsWith(s[i..], sep)
    ensures SplitAux(s, sep, cur) == [cur + s]
  {
    SplitAuxSkip(s, sep, cur, |s|);
    assert s[|s|..] == [] && s[..|s|] == s;
  }

  /** Characters Python's `str.isspace()` accepts, which `str.strip()` removes. */
  const Whitespace: set<char> := {
    ' ', '\t', '\n', '\U{000B}', '\U{000C}', '\r', '\U{001C}', '\U{001D}', '\U{001E}', '\U{001F}',
    '\U{0085}', '\U{00A0}', '\U{1680}', '\U{2000}', '\U{2001}', '\U{2002}', '\U{2003}', '\U{2004}',
    '\U{2005}', '\U{2006}', '\U{2007}', '\U{2008}', '\U{2009}', '\U{200A}', '\U{2028}', '\U{2029}',
    '\U{202F}', '\U{205F}', '\U{3000}'
  }

  function StripLeft(s: string, cs: set<char>): string
    decreases |s|
  {
    if s != [] && s[0] in cs then StripLeft(s[1..], cs) else s
  }

  function StripRight(s: string, cs: set<char>): string
    decreases |s|
  {
    if s != [] && s[|s| - 1] in cs then StripRight(s[..|s| - 1], cs) else s
  }

  /** `s.strip(chars)`: drop every leading and every trailing character in `cs`. */
  function Strip(s: string, cs: set<char>): string {
    StripRight(StripLeft(s, cs), cs)
  }

  /** `s.strip()`. */
  function Trim(s: string): string {
    Strip(s, Whitespace)
  }

  lemma {:induction false} StripLeftShape(s: string, cs: set<char>)
    ensures |StripLeft(s, cs)| <= |s|
    ensures StripLeft(s, cs) == s[|s| - |StripLeft(s, cs)|..]
    ensures forall i :: 0 <= i < |s| - |StripLeft(s, cs)| ==> s[i] in cs
    ensures StripLeft(s, cs) != [] ==> StripLeft(s, cs)[0] !in cs
    decreases |s|
  {
    if s != [] && s[0] in cs {
      StripLeftShape(s[1..], cs);
    }
  }

  lemma {:induction false} StripRightShape(s: string, cs: set<char>)
    ensures |StripRight(s, cs)| <= |s|
    ensures StripRight(s, cs) == s[..|StripRight(s, cs)|]
    ensures forall i :: |StripRight(s, cs)| <= i < |s| ==> s[i] in cs
    ensures StripRight(s, cs) != [] ==> StripRight(s, cs)[|StripRight(s, cs)| - 1] !in cs
    decreases |s|
  {
    if s != [] && s[|s| - 1] in cs {
      StripRightShape(s[..|s| - 1], cs);
    }
  }

  /** The stripped text neither starts nor ends with a character of `cs`. */
  lemma StripEnds(s: string, cs: set<char>)
    ensures Strip(s, cs) != [] ==> Strip(s, cs)[0] !in cs && Strip(s, cs)[|Strip(s, cs)| - 1] !in cs
  {
    var l := StripLeft(s, cs);
    StripLeftShape(s, cs);
    StripRightShape(l, cs);
    if Strip(s, cs) != [] {
      assert Strip(s, cs)[0] == l[0];
    }
  }

  /** `s.strip(chars) == ""` exactly when every character of `s` is in `chars`. */
  lemma StripEmptyIff(s: string, cs: set<char>)
    ensures Strip(s, cs) == [] <==> forall k :: 0 <= k < |s| ==> s[k] in cs
  {
    var l := StripLeft(s, cs);
    StripLeftShape(s, cs);
    StripRightShape(l, cs);
    if l != [] {
      assert l[0] == s[|s| - |l|];
    }
  }
}
