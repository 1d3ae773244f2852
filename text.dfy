/**
 * The Python string operations the provisioning tool relies on (`str.replace`,
 * `str.split`, `str.strip`) and the POSIX sh quoting that its escaped shell
 * arguments are read back with.
 */
module Text {
  import opened Wrappers

  // ---------------------------------------------------------------------------
  // Occurrences and str.replace
  // ---------------------------------------------------------------------------

  /** `pat` occurs in `s` starting at index `i`. */
  predicate IsAt(s: string, pat: string, i: int) {
    0 <= i && i + |pat| <= |s| && s[i..i + |pat|] == pat
  }

  /** `pat in s`, as Python's substring test. */
  predicate Contains(s: string, pat: string) {
    exists i :: 0 <= i <= |s| && IsAt(s, pat, i)
  }

  /**
   * `s.replace(pat, rep)` for a non-empty `pat`: scanning left to right,
   * every occurrence not overlapping an earlier replaced one is replaced,
   * and the inserted text is never scanned again.
   */
  function Replace(s: string, pat: string, rep: string): string
    requires pat != []
    decreases |s|
  {
    if |s| < |pat| then s
    else if s[..|pat|] == pat then rep + Replace(s[|pat|..], pat, rep)
    else [s[0]] + Replace(s[1..], pat, rep)
  }

  /** A text in which the pattern does not occur is left as it is. */
  lemma {:induction false} ReplaceAbsent(s: string, pat: string, rep: string)
    requires pat != [] && !Contains(s, pat)
    ensures Replace(s, pat, rep) == s
    decreases |s|
  {
    if |s| >= |pat| {
      assert !IsAt(s, pat, 0);
      assert s[..|pat|] != pat;
      forall i | 0 <= i <= |s[1..]| && IsAt(s[1..], pat, i)
        ensures false
      {
        assert s[1..][i..i + |pat|] == s[i + 1..i + 1 + |pat|];
        assert IsAt(s, pat, i + 1);
      }
      ReplaceAbsent(s[1..], pat, rep);
    }
  }

  /** An occurrence in `t[1..]` is an occurrence in `t`, one index later. */
  lemma IsAtTail(t: string, pat: string, j: nat)
    requires t != []
    ensures IsAt(t[1..], pat, j) ==> IsAt(t, pat, j + 1)
  {
    if j + |pat| <= |t| - 1 {
      assert t[1..][j..j + |pat|] == t[j + 1..j + 1 + |pat|];
    }
  }

  /** With no occurrence starting before `n`, the first `n` characters pass through unchanged. */
  lemma {:induction false} ReplaceSplit(t: string, pat: string, rep: string, n: nat)
    requires pat != [] && n <= |t|
    requires forall j :: 0 <= j < n ==> !IsAt(t, pat, j)
    ensures Replace(t, pat, rep) == t[..n] + Replace(t[n..], pat, rep)
    decreases n
  {
    if n == 0 {
      assert t[..0] + t[0..] == t;
    } else {
      var tail := t[1..];
      forall j | 0 <= j < n - 1
        ensures !IsAt(tail, pat, j)
      {
        IsAtTail(t, pat, j);
      }
      ReplaceKeepsFirst(t, pat, rep);
      ReplaceSplit(tail, pat, rep, n - 1);
      assert tail[n - 1..] == t[n..];
      ConsPrefix(t, n, Replace(t[n..], pat, rep));
    }
  }

  /** No occurrence straddles the boundary of `a + b`, nor after dropping a prefix of `a`. */
  lemma NoStraddleAfterDrop(a: string, b: string, pat: string, k: nat)
    requires k <= |a|
    requires forall i :: |a| - |pat| < i < |a| ==> !IsAt(a + b, pat, i)
    ensures forall i :: |a[k..]| - |pat| < i < |a[k..]| ==> !IsAt(a[k..] + b, pat, i)
  {
    var a' := a[k..];
    var s := a + b;
    assert a' + b == s[k..];
    forall i | |a'| - |pat| < i < |a'|
      ensures !IsAt(a' + b, pat, i)
    {
      assert !IsAt(s, pat, i + k);
      if 0 <= i && i + |pat| <= |a' + b| {
        assert (a' + b)[i..i + |pat|] == s[i + k..i + k + |pat|];
      }
    }
  }

  /** Where the pattern does not start, the first character is kept. */
  lemma ReplaceKeepsFirst(t: string, pat: string, rep: string)
    requires pat != [] && t != [] && !IsAt(t, pat, 0)
    ensures Replace(t, pat, rep) == [t[0]] + Replace(t[1..], pat, rep)
  {
    if |pat| <= |t| {
      assert t[0..|pat|] == t[..|pat|];
    }
  }

  /** Where the pattern starts, it is replaced. */
  lemma ReplaceAtStart(t: string, pat: string, rep: string)
    requires pat != [] && IsAt(t, pat, 0)
    ensures Replace(t, pat, rep) == rep + Replace(t[|pat|..], pat, rep)
  {
    assert t[0..|pat|] == t[..|pat|];
  }

  lemma ConsPrefix(t: string, n: nat, r: string)
    requires 1 <= n <= |t|
    ensures [t[0]] + (t[1..][..n - 1] + r) == t[..n] + r
  {
    assert [t[0]] + t[1..][..n - 1] == t[..n];
  }

  lemma AppendAssoc<T>(a: seq<T>, b: seq<T>, c: seq<T>)
    ensures a + (b + c) == (a + b) + c
  {
  }

  /** An occurrence at the start of `a` is one at the start of `a + b`. */
  lemma IsAtPrefix(a: string, b: string, pat: string)
    ensures IsAt(a, pat, 0) ==> IsAt(a + b, pat, 0)
  {
    if |pat| <= |a| {
      assert (a + b)[0..|pat|] == a[0..|pat|];
    }
  }

  /** One step of `ReplaceConcat` where the pattern starts the text. */
  lemma ConcatMatchStep(a: string, b: string, pat: string, rep: string)
    requires pat != [] && |pat| <= |a| && IsAt(a + b, pat, 0)
    requires Replace(a[|pat|..] + b, pat, rep) == Replace(a[|pat|..], pat, rep) + Replace(b, pat, rep)
    ensures Replace(a + b, pat, rep) == Replace(a, pat, rep) + Replace(b, pat, rep)
  {
    var s := a + b;
    assert a[0..|pat|] == s[0..|pat|];
    assert s[|pat|..] == a[|pat|..] + b;
    ReplaceAtStart(s, pat, rep);
    ReplaceAtStart(a, pat, rep);
    AppendAssoc(rep, Replace(a[|pat|..], pat, rep), Replace(b, pat, rep));
  }

  /** One step of `ReplaceConcat` where the first character is kept. */
  lemma ConcatKeepStep(a: string, b: string, pat: string, rep: string)
    requires pat != [] && a != [] && !IsAt(a + b, pat, 0)
    requires Replace(a[1..] + b, pat, rep) == Replace(a[1..], pat, rep) + Replace(b, pat, rep)
    ensures Replace(a + b, pat, rep) == Replace(a, pat, rep) + Replace(b, pat, rep)
  {
    var s := a + b;
    assert s[0] == a[0] && s[1..] == a[1..] + b;
    IsAtPrefix(a, b, pat);
    ReplaceKeepsFirst(s, pat, rep);
    ReplaceKeepsFirst(a, pat, rep);
    AppendAssoc([a[0]], Replace(a[1..], pat, rep), Replace(b, pat, rep));
  }

  /**
   * Replacing in a concatenation is replacing in each part, provided that no
   * occurrence of the pattern straddles the boundary.
   */
  lemma {:induction false} ReplaceConcat(a: string, b: string, pat: string, rep: string)
    requires pat != []
    requires forall i :: |a| - |pat| < i < |a| ==> !IsAt(a + b, pat, i)
    ensures Replace(a + b, pat, rep) == Replace(a, pat, rep) + Replace(b, pat, rep)
    decreases |a|
  {
    if a == [] {
      assert a + b == b;
    } else if IsAt(a + b, pat, 0) {
      assert |pat| <= |a|;
      NoStraddleAfterDrop(a, b, pat, |pat|);
      ReplaceConcat(a[|pat|..], b, pat, rep);
      ConcatMatchStep(a, b, pat, rep);
    } else {
      NoStraddleAfterDrop(a, b, pat, 1);
      ReplaceConcat(a[1..], b, pat, rep);
      ConcatKeepStep(a, b, pat, rep);
    }
  }

  /** Every character `q` becomes `rep`; every other character is kept. */
  function MapChar(s: string, q: char, rep: string): string
    decreases |s|
  {
    if s == [] then [] else (if s[0] == q then rep else [s[0]]) + MapChar(s[1..], q, rep)
  }

  /** Replacing a one-character pattern is the character-wise map. */
  lemma {:induction false} ReplaceCharwise(s: string, q: char, rep: string)
    ensures Replace(s, [q], rep) == MapChar(s, q, rep)
    decreases |s|
  {
    if s != [] {
      assert s[..1] == [q] <==> s[0] == q;
      ReplaceCharwise(s[1..], q, rep);
    }
  }

  // ---------------------------------------------------------------------------
  // Escaping for the shell (tools/setup_mission.py)
  // ---------------------------------------------------------------------------

  /** The goal's escape: each `'` becomes `'\''`. */
  function EscapeSingleQuotes(s: string): string {
    Replace(s, "'", "'\\''")
  }

  /** The cron message's escape: each `"` becomes `\"`. */
  function EscapeDoubleQuotes(s: string): string {
    Replace(s, "\"", "\\\"")
  }

  function Prepend(p: string, o: Option<string>): Option<string> {
    match o
    case None => None
    case Some(t) => Some(p + t)
  }

  /**
   * Reads a shell word made of single-quoted strings and backslash escapes
   * (POSIX Shell Command Language, sections 2.2.1 and 2.2.2). Inside single
   * quotes every character stands for itself up to the next `'`; outside, a
   * backslash quotes the next character and backslash-newline is removed.
   * None: an unterminated quote, or a character outside this fragment.
   */
  function UnquoteWord(s: string, inQuotes: bool): Option<string>
    decreases |s|
  {
    if s == [] then (if inQuotes then None else Some([]))
    else if inQuotes then
      (if s[0] == '\'' then UnquoteWord(s[1..], false)
       else Prepend([s[0]], UnquoteWord(s[1..], true)))
    else if s[0] == '\'' then UnquoteWord(s[1..], true)
    else if s[0] == '\\' && |s| >= 2 then
      (if s[1] == '\n' then UnquoteWord(s[2..], false)
       else Prepend([s[1]], UnquoteWord(s[2..], false)))
    else None
  }

  lemma {:induction false} EscapedThenQuoteReadsBack(g: string)
    ensures UnquoteWord(EscapeSingleQuotes(g) + "'", true) == Some(g)
    decreases |g|
  {
    ReplaceCharwise(g, '\'', "'\\''");
    if g == [] {
      assert EscapeSingleQuotes(g) + "'" == "'";
      assert UnquoteWord("'"[1..], false) == Some([]);
    } else {
      ReplaceCharwise(g[1..], '\'', "'\\''");
      var x := EscapeSingleQuotes(g[1..]) + "'";
      EscapedThenQuoteReadsBack(g[1..]);
      if g[0] == '\'' {
        var s := EscapeSingleQuotes(g) + "'";
        var s1 := "\\''" + x;
        var s2 := "'" + x;
        assert s == "'\\''" + x;
        assert s[0] == '\'' && s[1..] == s1;
        assert s1[0] == '\\' && s1[1] == '\'' && s1[2..] == s2;
        assert s2[0] == '\'' && s2[1..] == x;
        assert UnquoteWord(s2, false) == Some(g[1..]);
        assert UnquoteWord(s1, false) == Some("'" + g[1..]);
        assert [g[0]] + g[1..] == g;
      } else {
        var s := EscapeSingleQuotes(g) + "'";
        assert s == [g[0]] + x;
        assert s[1..] == x;
        assert [g[0]] + g[1..] == g;
      }
    }
  }

  /**
   * Wrapping the escaped goal in single quotes gives back the goal, whatever
   * characters it holds: the sh single-quote idiom is a faithful quoting.
   */
  lemma SingleQuoteRoundTrip(g: string)
    ensures UnquoteWord("'" + EscapeSingleQuotes(g) + "'", false) == Some(g)
  {
    var s := "'" + EscapeSingleQuotes(g) + "'";
    assert s[1..] == EscapeSingleQuotes(g) + "'";
    EscapedThenQuoteReadsBack(g);
  }

  /** None of the characters that stay special inside double quotes. */
  predicate DoubleQuoteInert(s: string) {
    forall i | 0 <= i < |s| :: s[i] != '\\' && s[i] != '$' && s[i] != '`'
  }

  /**
   * Reads the text between the double quotes of a shell word (POSIX Shell
   * Command Language, section 2.2.3): a backslash quotes `$`, `` ` ``, `"`,
   * `\` and newline and is otherwise literal. None: an unescaped `"` (it would
   * close the quotes early), a final lone backslash, or an expansion (`$`,
   * `` ` ``), which this reading does not perform.
   */
  function UnquoteDouble(s: string): Option<string>
    decreases |s|
  {
    if s == [] then Some([])
    else if s[0] == '"' || s[0] == '$' || s[0] == '`' then None
    else if s[0] == '\\' then
      (if |s| == 1 then None
       else if s[1] == '\n' then UnquoteDouble(s[2..])
       else if s[1] == '$' || s[1] == '`' || s[1] == '"' || s[1] == '\\' then
         Prepend([s[1]], UnquoteDouble(s[2..]))
       else Prepend([s[0]], UnquoteDouble(s[1..])))
    else Prepend([s[0]], UnquoteDouble(s[1..]))
  }

  /**
   * The cron-message escape is read back exactly by the shell when the text
   * holds no backslash, `$` or backquote (the escape leaves those alone).
   */
  lemma {:induction false} DoubleQuoteRoundTrip(m: string)
    requires DoubleQuoteInert(m)
    ensures UnquoteDouble(EscapeDoubleQuotes(m)) == Some(m)
    decreases |m|
  {
    ReplaceCharwise(m, '"', "\\\"");
    if m != [] {
      ReplaceCharwise(m[1..], '"', "\\\"");
      assert m[1..] <= m[1..];
      assert forall i | 0 <= i < |m[1..]| :: m[1..][i] == m[i + 1];
      DoubleQuoteRoundTrip(m[1..]);
      var x := EscapeDoubleQuotes(m[1..]);
      var s := EscapeDoubleQuotes(m);
      if m[0] == '"' {
        assert s == "\\\"" + x;
        assert s[2..] == x;
      } else {
        assert s == [m[0]] + x;
        assert s[1..] == x;
      }
      assert [m[0]] + m[1..] == m;
    }
  }

  /** A message holding a backslash before a quote is not read back. */
  lemma DoubleQuoteNeedsInert()
    ensures UnquoteDouble(EscapeDoubleQuotes("\\\"")) == None
  {
    ReplaceCharwise("\\\"", '"', "\\\"");
    var s := EscapeDoubleQuotes("\\\"");
    assert s == "\\\\\"";
    assert s[2..] == "\"";
  }

  // ---------------------------------------------------------------------------
  // str.split(sep) and its inverse
  // ---------------------------------------------------------------------------

  /** `sep.join(parts)`. */
  function Join(parts: seq<string>, sep: char): string
    decreases |parts|
  {
    if parts == [] then []
    else if |parts| == 1 then parts[0]
    else parts[0] + [sep] + Join(parts[1..], sep)
  }

  /** A character missing from the joined text is missing from every part. */
  lemma {:induction false} JoinAvoids(parts: seq<string>, sep: char, c: char)
    ensures c !in Join(parts, sep) ==> forall i :: 0 <= i < |parts| ==> c !in parts[i]
    decreases |parts|
  {
    if |parts| > 1 {
      JoinAvoids(parts[1..], sep, c);
      assert Join(parts, sep) == parts[0] + [sep] + Join(parts[1..], sep);
      assert forall i :: 1 <= i < |parts| ==> parts[i] == parts[1..][i - 1];
    }
  }

  /**
   * `s.split(sep)` with an explicit one-character separator: always at least
   * one part, no part holds the separator, and joining the parts gives `s`
   * back (so `"".split(",") == [""]` and `"a,,b"` has an empty middle part).
   */
  function Split(s: string, sep: char): (r: seq<string>)
    ensures |r| >= 1
    ensures forall i :: 0 <= i < |r| ==> sep !in r[i]
    ensures Join(r, sep) == s
    decreases |s|
  {
    if s == [] then [[]]
    else
      var rest := Split(s[1..], sep);
      if s[0] == sep then
        assert [sep] + Join(rest, sep) == s;
        [[]] + rest
      else
        var r := [[s[0]] + rest[0]] + rest[1..];
        assert r[1..] == rest[1..];
        assert Join(r, sep) == [s[0]] + Join(rest, sep);
        r
  }

  lemma {:induction false} SplitWithout(x: string, sep: char)
    requires sep !in x
    ensures Split(x, sep) == [x]
    decreases |x|
  {
    if x != [] {
      assert x[0] in x;
      assert forall c :: c in x[1..] ==> c in x;
      SplitWithout(x[1..], sep);
      assert [x[0]] + x[1..] == x;
    }
  }

  lemma {:induction false} SplitAfterPart(x: string, y: string, sep: char)
    requires sep !in x
    ensures Split(x + [sep] + y, sep) == [x] + Split(y, sep)
    decreases |x|
  {
    if x == [] {
      assert (x + [sep] + y)[1..] == y;
    } else {
      assert x[0] in x;
      assert forall c :: c in x[1..] ==> c in x;
      assert (x + [sep] + y)[1..] == x[1..] + [sep] + y;
      SplitAfterPart(x[1..], y, sep);
      assert [x[0]] + x[1..] == x;
    }
  }

  /** Splitting a joined list of separator-free parts gives the parts back. */
  lemma {:induction false} SplitJoin(parts: seq<string>, sep: char)
    requires |parts| >= 1
    requires forall i :: 0 <= i < |parts| ==> sep !in parts[i]
    ensures Split(Join(parts, sep), sep) == parts
    decreases |parts|
  {
    if |parts| == 1 {
      SplitWithout(parts[0], sep);
    } else {
      SplitJoin(parts[1..], sep);
      SplitAfterPart(parts[0], Join(parts[1..], sep), sep);
      assert [parts[0]] + parts[1..] == parts;
    }
  }

  // ---------------------------------------------------------------------------
  // str.strip()
  // ---------------------------------------------------------------------------

  /** The characters for which Python's `str.isspace()` holds. */
  predicate IsSpace(c: char) {
    c == ' ' || '\t' <= c <= '\r' || '\U{1c}' <= c <= '\U{1f}' || c == '\U{85}' ||
    c == '\U{a0}' || c == '\U{1680}' || '\U{2000}' <= c <= '\U{200a}' ||
    c == '\U{2028}' || c == '\U{2029}' || c == '\U{202f}' || c == '\U{205f}' ||
    c == '\U{3000}'
  }

  /** No whitespace at either end. */
  predicate Trimmed(s: string) {
    s == [] || (!IsSpace(s[0]) && !IsSpace(s[|s| - 1]))
  }

  /** The index of the first non-whitespace character at or after `i`, `|s|` if none. */
  function SkipSpaces(s: string, i: nat): (j: nat)
    requires i <= |s|
    ensures i <= j <= |s|
    ensures forall k :: i <= k < j ==> IsSpace(s[k])
    ensures j < |s| ==> !IsSpace(s[j])
    decreases |s| - i
  {
    if i < |s| && IsSpace(s[i]) then SkipSpaces(s, i + 1) else i
  }

  /** One past the last non-whitespace character before `j`, and `lo` if there is none from `lo` on. */
  function SkipSpacesBack(s: string, lo: nat, j: nat): (k: nat)
    requires lo <= j <= |s|
    ensures lo <= k <= j
    ensures forall m :: k <= m < j ==> IsSpace(s[m])
    ensures k > lo ==> !IsSpace(s[k - 1])
    decreases j
  {
    if j > lo && IsSpace(s[j - 1]) then SkipSpacesBack(s, lo, j - 1) else j
  }

  /**
   * `s.strip()`: the slice of `s` between its leading and its trailing
   * whitespace. The result has no whitespace at its ends, holds only
   * characters of `s`, is empty exactly when `s` is all whitespace, and a
   * text without whitespace at its ends is its own strip.
   */
  function Strip(s: string): (r: string)
    ensures Trimmed(r)
    ensures forall c :: c in r ==> c in s
    ensures r == [] <==> forall i :: 0 <= i < |s| ==> IsSpace(s[i])
    ensures Trimmed(s) ==> r == s
    ensures exists lo, hi :: 0 <= lo <= hi <= |s| && r == s[lo..hi] && StripsTo(s, lo, hi)
  {
    var lo := SkipSpaces(s, 0);
    var hi := SkipSpacesBack(s, lo, |s|);
    assert hi > lo ==> s[lo..hi][0] == s[lo] && s[lo..hi][hi - lo - 1] == s[hi - 1];
    assert StripsTo(s, lo, hi);
    s[lo..hi]
  }

  /** Everything before `lo` and from `hi` on is whitespace. */
  predicate StripsTo(s: string, lo: nat, hi: nat)
    requires lo <= hi <= |s|
  {
    (forall k :: 0 <= k < lo ==> IsSpace(s[k])) && (forall k :: hi <= k < |s| ==> IsSpace(s[k]))
  }

  /**
   * The strip is the only trimmed slice with nothing but whitespace around
   * it: `Strip` is fully determined by its contract.
   */
  lemma StripUnique(s: string, lo: nat, hi: nat)
    requires lo <= hi <= |s| && StripsTo(s, lo, hi) && Trimmed(s[lo..hi])
    ensures Strip(s) == s[lo..hi]
  {
    var lo' := SkipSpaces(s, 0);
    var hi' := SkipSpacesBack(s, lo', |s|);
    assert Strip(s) == s[lo'..hi'];
    if lo < hi {
      assert s[lo..hi][0] == s[lo] && s[lo..hi][hi - lo - 1] == s[hi - 1];
      Inside(s, lo', hi', lo);
      Inside(s, lo', hi', hi - 1);
    }
    if lo' < hi' {
      Inside(s, lo, hi, lo');
      Inside(s, lo, hi, hi' - 1);
    }
  }

  /** A character that is not whitespace lies inside any window with only whitespace around it. */
  lemma Inside(s: string, lo: nat, hi: nat, k: nat)
    requires lo <= hi <= |s| && StripsTo(s, lo, hi)
    requires k < |s| && !IsSpace(s[k])
    ensures lo <= k < hi
  {
  }

}
