/**
 * The Python `str` operations the core relies on, over ASCII: `isspace`, `strip`,
 * `lower`, `startswith`, `in`, `join`, `split()`, `split(sep)`, `splitlines` and
 * the run matching of `re.findall` with a character class.
 * Whitespace is what Python's `isspace` accepts within ASCII, and a line break is '\n' only.
 */
module Text {
  import opened Wrappers


  /** Python's whitespace within ASCII: space, \t, \n, \r, \v, \f and the separators
      \x1c to \x1f. */
  predicate IsSpace(c: char) {
    c == ' ' || c == '\t' || c == '\n' || c == '\r' || c == '\U{B}' || c == '\U{C}'
    || '\U{1C}' <= c <= '\U{1F}'
  }

  predicate IsDigit(c: char) {
    '0' <= c <= '9'
  }

  /** A string that `strip()` empties. */
  predicate IsBlank(s: string) {
    forall i :: 0 <= i < |s| ==> IsSpace(s[i])
  }

  /** The index of the first character at or after `from` that is not whitespace, or `|s|`. */
  function SkipSpace(s: string, from: nat): (k: nat)
    requires from <= |s|
    ensures from <= k <= |s|
    ensures forall i :: from <= i < k ==> IsSpace(s[i])
    ensures k < |s| ==> !IsSpace(s[k])
    decreases |s| - from
  {
    if from == |s| || !IsSpace(s[from]) then from else SkipSpace(s, from + 1)
  }

  /** The end of `s[lo..hi]` once its trailing whitespace is cut. */
  function TrimEnd(s: string, lo: nat, hi: nat): (j: nat)
    requires lo <= hi <= |s|
    ensures lo <= j <= hi
    ensures forall i :: j <= i < hi ==> IsSpace(s[i])
    ensures lo < j ==> !IsSpace(s[j - 1])
    decreases hi
  {
    if hi == lo || !IsSpace(s[hi - 1]) then hi else TrimEnd(s, lo, hi - 1)
  }

  /** `str.strip()`: the text between the leading and the trailing whitespace. */
  function Strip(s: string): string {
    var i := SkipSpace(s, 0);
    s[i..TrimEnd(s, i, |s|)]
  }

  /** `str.strip()` removes exactly the whitespace at both ends: the result is a slice of `s`
      that neither starts nor ends with whitespace, and only whitespace was cut. */
  lemma StripSlice(s: string) returns (i: nat, j: nat)
    ensures i <= j <= |s| && Strip(s) == s[i..j]
    ensures Strip(s) == [] || (!IsSpace(Strip(s)[0]) && !IsSpace(Strip(s)[|Strip(s)| - 1]))
    ensures forall k :: 0 <= k < i ==> IsSpace(s[k])
    ensures forall k :: j <= k < |s| ==> IsSpace(s[k])
  {
    i := SkipSpace(s, 0);
    j := TrimEnd(s, i, |s|);
  }

  /** Every character of the stripped text occurs in the text. */
  lemma StripChars(s: string, c: char)
    requires c in Strip(s)
    ensures c in s
  {
    var i, j := StripSlice(s);
    var k :| 0 <= k < |Strip(s)| && Strip(s)[k] == c;
    assert s[i + k] == c;
  }

  /** `not s.strip()` holds exactly for blank strings. */
  lemma StripEmptyIffBlank(s: string)
    ensures Strip(s) == [] <==> IsBlank(s)
  {
    var i, j := StripSlice(s);
    if Strip(s) == [] {
      assert i == j;
    } else {
      assert s[i] == Strip(s)[0] && !IsSpace(s[i]);
    }
  }

  /** A text without whitespace at either end is its own strip. */
  lemma StripUntrimmed(s: string)
    requires s != [] && !IsSpace(s[0]) && !IsSpace(s[|s| - 1])
    ensures Strip(s) == s
  {
    assert SkipSpace(s, 0) == 0;
    assert TrimEnd(s, 0, |s|) == |s|;
  }

  /** A whitespace character in front of a trimmed text is stripped away. */
  lemma StripSpaceHead(c: char, t: string)
    requires IsSpace(c) && t != [] && !IsSpace(t[0]) && !IsSpace(t[|t| - 1])
    ensures Strip([c] + t) == t
  {
    var s := [c] + t;
    assert SkipSpace(s, 1) == 1;
    assert SkipSpace(s, 0) == 1;
    assert TrimEnd(s, 1, |s|) == |s|;
    assert s[1..] == t;
  }

  /** A trimmed text followed by one whitespace character strips back to the text. */
  lemma StripSpaceTail(t: string, c: char)
    requires IsSpace(c) && t != [] && !IsSpace(t[0]) && !IsSpace(t[|t| - 1])
    ensures Strip(t + [c]) == t
  {
    var s := t + [c];
    assert SkipSpace(s, 0) == 0;
    assert TrimEnd(s, 0, |t|) == |t|;
    assert TrimEnd(s, 0, |s|) == |t|;
    assert s[..|t|] == t;
  }

  /** `strip()` is idempotent. */
  lemma StripIdempotent(s: string)
    ensures Strip(Strip(s)) == Strip(s)
  {
    var i, j := StripSlice(s);
    if Strip(s) != [] {
      StripUntrimmed(Strip(s));
    }
  }

  /** A text that starts with a non-space head followed by a non-blank tail strips to a text
      that starts with the whole head and goes on past it. */
  lemma StripHead(head: string, tail: string)
    requires head != [] && !IsSpace(head[0]) && !IsBlank(tail)
    ensures |head| < |Strip(head + tail)| && Strip(head + tail)[..|head|] == head
  {
    var s := head + tail;
    assert SkipSpace(s, 0) == 0;
    var k :| 0 <= k < |tail| && !IsSpace(tail[k]);
    assert !IsSpace(s[|head| + k]);
    var j := TrimEnd(s, 0, |s|);
    assert |head| < j;
    assert Strip(s)[..|head|] == head;
  }

  /** A text whose first character is not whitespace strips to a text with that same first character. */
  lemma StripFirst(s: string)
    requires s != [] && !IsSpace(s[0])
    ensures Strip(s) != [] && Strip(s)[0] == s[0]
  {
    assert SkipSpace(s, 0) == 0;
    assert TrimEnd(s, 0, |s|) > 0;
  }

  /** `s.rstrip(c)` for one character `c`: drops every trailing `c`. */
  function RStripChar(s: string, c: char): (r: string)
    ensures |r| <= |s| && r == s[..|r|]
    ensures r == [] || r[|r| - 1] != c
    ensures forall i :: |r| <= i < |s| ==> s[i] == c
  {
    if s == [] || s[|s| - 1] != c then s else RStripChar(s[..|s| - 1], c)
  }

  /** `s[:n]`: at most the first `n` elements. */
  function Take<T>(s: seq<T>, n: nat): (r: seq<T>)
    ensures |r| == if |s| < n then |s| else n
    ensures r == s[..|r|]
  {
    if |s| <= n then s else s[..n]
  }

  /** Case folding of one character: ASCII upper-case letters become lower-case. */
  function LowerChar(c: char): char {
    if 'A' <= c <= 'Z' then (c as int + 32) as char else c
  }

  /** Upper-casing of one character: ASCII lower-case letters become upper-case. */
  function UpperChar(c: char): char {
    if 'a' <= c <= 'z' then (c as int - 32) as char else c
  }

  /** `str.lower()` over ASCII. */
  function Lower(s: string): (r: string)
    ensures |r| == |s|
    ensures forall i :: 0 <= i < |s| ==> r[i] == LowerChar(s[i])
  {
    seq(|s|, i requires 0 <= i < |s| => LowerChar(s[i]))
  }

  /** `str.startswith(p)`. */
  predicate StartsWith(s: string, p: string) {
    |p| <= |s| && s[..|p|] == p
  }

  /** A text starts with any prefix of it one character longer than `p`. */
  lemma StartsWithNext(p: string, rest: string)
    requires rest != []
    ensures StartsWith(p + rest, p + [rest[0]])
  {
    assert (p + rest)[..|p| + 1] == p + [rest[0]];
  }

  /** `t` occurs in `s` at index `i`. */
  predicate OccursAt(s: string, t: string, i: nat) {
    i + |t| <= |s| && s[i..i + |t|] == t
  }

  /** Python's `t in s` on strings. */
  predicate Contains(s: string, t: string) {
    exists i | 0 <= i <= |s| :: OccursAt(s, t, i)
  }

  /** A text is found in any text that ends with it. */
  lemma ContainsSuffix(a: string, b: string, t: string)
    requires Contains(b, t)
    ensures Contains(a + b, t)
  {
    var i :| 0 <= i <= |b| && OccursAt(b, t, i);
    assert (a + b)[|a| + i..|a| + i + |t|] == t;
    assert OccursAt(a + b, t, |a| + i);
  }

  /** A text occurs in any text built around it. */
  lemma ContainsMiddle(a: string, t: string, b: string)
    ensures Contains(a + t + b, t)
  {
    assert (a + t + b)[|a|..|a| + |t|] == t;
    assert OccursAt(a + t + b, t, |a|);
  }

  /** A text that has a character the other text lacks cannot occur in it. */
  lemma NotContainedIfCharMissing(s: string, t: string, k: nat)
    requires k < |t| && t[k] !in s
    ensures !Contains(s, t)
  {
    forall i | 0 <= i <= |s| ensures !OccursAt(s, t, i) {
      if i + |t| <= |s| {
        assert s[i + k] in s;
        assert s[i..i + |t|][k] != t[k];
      }
    }
  }

  /** `sep.join(parts)`. */
  function Join(sep: string, parts: seq<string>): string {
    if |parts| == 0 then ""
    else if |parts| == 1 then parts[0]
    else parts[0] + sep + Join(sep, parts[1..])
  }

  /** A joined text starts with its first part. */
  lemma JoinHead(sep: string, parts: seq<string>)
    requires parts != [] && parts[0] != []
    ensures Join(sep, parts) != [] && Join(sep, parts)[0] == parts[0][0]
  {
    if |parts| > 1 {
      assert Join(sep, parts) == parts[0] + (sep + Join(sep, parts[1..]));
    }
  }

  /** The index of the first `c` in `s`, or `|s|` when there is none. */
  function Find(s: string, c: char): (k: nat)
    ensures k <= |s|
    ensures k < |s| ==> s[k] == c
    ensures forall i :: 0 <= i < k ==> s[i] != c
  {
    if s == [] then 0 else if s[0] == c then 0 else 1 + Find(s[1..], c)
  }

  /** A character that does not occur is found at the end. */
  lemma FindAbsent(s: string, c: char)
    requires c !in s
    ensures Find(s, c) == |s|
  {
  }

  /** `str.splitlines()` with '\n' as the only line break: a final break opens no extra line. */
  function SplitLines(s: string): seq<string>
    decreases |s|
  {
    if s == [] then []
    else
      var k := Find(s, '\n');
      if k == |s| then [s] else [s[..k]] + SplitLines(s[k + 1..])
  }

  /** The text `"\n".join(lines) + "\n"` for a non-empty list: every line followed by a break. */
  function Unlines(lines: seq<string>): string {
    if lines == [] then "" else lines[0] + "\n" + Unlines(lines[1..])
  }

  /** A joined text ends with its last part. */
  lemma {:induction false} JoinEndsWith(sep: string, parts: seq<string>)
    requires parts != []
    ensures |parts[|parts| - 1]| <= |Join(sep, parts)|
    ensures Join(sep, parts)[|Join(sep, parts)| - |parts[|parts| - 1]|..] == parts[|parts| - 1]
    decreases |parts|
  {
    if |parts| > 1 {
      JoinEndsWith(sep, parts[1..]);
      assert parts[1..][|parts[1..]| - 1] == parts[|parts| - 1];
      assert Join(sep, parts) == (parts[0] + sep) + Join(sep, parts[1..]);
    }
  }

  lemma {:induction false} JoinLines(lines: seq<string>)
    requires lines != []
    ensures Join("\n", lines) + "\n" == Unlines(lines)
    decreases |lines|
  {
    if |lines| > 1 {
      JoinLines(lines[1..]);
    }
  }

  /** Splitting the text of lines that contain no break gives the lines back. */
  lemma {:induction false} SplitUnlines(lines: seq<string>)
    requires forall i :: 0 <= i < |lines| ==> '\n' !in lines[i]
    ensures SplitLines(Unlines(lines)) == lines
    decreases |lines|
  {
    if lines != [] {
      SplitUnlinesHead(lines[0], Unlines(lines[1..]));
      SplitUnlines(lines[1..]);
    }
  }

  /** The first line of a text is split off at its break. */
  lemma SplitUnlinesHead(l: string, rest: string)
    requires '\n' !in l
    ensures SplitLines(l + "\n" + rest) == [l] + SplitLines(rest)
  {
    var s := l + "\n" + rest;
    assert s == l + ("\n" + rest);
    assert s[|l|] == '\n';
    assert forall i :: 0 <= i < |l| ==> s[i] == l[i] && s[i] != '\n';
    assert Find(s, '\n') == |l|;
    assert s[..|l|] == l;
    assert s[|l| + 1..] == rest;
  }

  /** `str.split(sep)` for a one-character separator: "" gives [""] and empty pieces are kept. */
  function SplitOn(s: string, sep: char): (parts: seq<string>)
    ensures |parts| >= 1
    ensures forall i :: 0 <= i < |parts| ==> sep !in parts[i]
    decreases |s|
  {
    var k := Find(s, sep);
    if k == |s| then [s] else [s[..k]] + SplitOn(s[k + 1..], sep)
  }

  /** Some piece contains `c`. */
  predicate InSomePiece(c: char, parts: seq<string>) {
    exists k :: 0 <= k < |parts| && c in parts[k]
  }

  /** Every character of a piece comes from the text, and every character of the text other
      than the separator lands in some piece. */
  lemma SplitOnChars(s: string, sep: char)
    ensures forall k, m :: 0 <= k < |SplitOn(s, sep)| && 0 <= m < |SplitOn(s, sep)[k]| ==>
      SplitOn(s, sep)[k][m] in s
    ensures forall i :: 0 <= i < |s| && s[i] != sep ==> InSomePiece(s[i], SplitOn(s, sep))
  {
    SplitOnFromText(s, sep);
    SplitOnCovers(s, sep);
  }

  /** Every character of a piece comes from the text. */
  lemma {:induction false} SplitOnFromText(s: string, sep: char)
    ensures forall k, m :: 0 <= k < |SplitOn(s, sep)| && 0 <= m < |SplitOn(s, sep)[k]| ==>
      SplitOn(s, sep)[k][m] in s
    decreases |s|
  {
    var k := Find(s, sep);
    var parts := SplitOn(s, sep);
    if k < |s| {
      var rest := s[k + 1..];
      SplitOnFromText(rest, sep);
      assert parts == [s[..k]] + SplitOn(rest, sep);
      forall j, m | 0 <= j < |parts| && 0 <= m < |parts[j]| ensures parts[j][m] in s {
        if j == 0 {
          assert s[m] == parts[j][m];
        } else {
          assert parts[j] == SplitOn(rest, sep)[j - 1];
          var n :| 0 <= n < |rest| && rest[n] == parts[j][m];
          assert s[k + 1 + n] == parts[j][m];
        }
      }
    } else {
      assert parts == [s];
    }
  }

  /** Every character of the text other than the separator lands in some piece. */
  lemma {:induction false} SplitOnCovers(s: string, sep: char)
    ensures forall i :: 0 <= i < |s| && s[i] != sep ==> InSomePiece(s[i], SplitOn(s, sep))
    decreases |s|
  {
    var k := Find(s, sep);
    var parts := SplitOn(s, sep);
    if k < |s| {
      var rest := s[k + 1..];
      SplitOnCovers(rest, sep);
      assert parts == [s[..k]] + SplitOn(rest, sep);
      forall i | 0 <= i < |s| && s[i] != sep
        ensures InSomePiece(s[i], parts)
      {
        if i < k {
          assert s[..k][i] == s[i];
          assert s[i] in parts[0];
        } else {
          assert rest[i - k - 1] == s[i];
          var j :| 0 <= j < |SplitOn(rest, sep)| && s[i] in SplitOn(rest, sep)[j];
          assert parts[j + 1] == SplitOn(rest, sep)[j];
          assert s[i] in parts[j + 1];
        }
      }
    } else {
      assert parts == [s];
      forall i | 0 <= i < |s| && s[i] != sep
        ensures InSomePiece(s[i], parts)
      {
        assert s[i] in parts[0];
      }
    }
  }

  /** `s.replace(a, b)` for single characters. */
  function Replace(s: string, a: char, b: char): (r: string)
    ensures |r| == |s|
    ensures forall i :: 0 <= i < |s| ==> r[i] == (if s[i] == a then b else s[i])
  {
    if s == [] then [] else [if s[0] == a then b else s[0]] + Replace(s[1..], a, b)
  }

  /** The length of the longest prefix of `s` whose characters satisfy `keep`. */
  function RunLength(s: string, keep: char -> bool): (k: nat)
    ensures k <= |s|
    ensures forall i :: 0 <= i < k ==> keep(s[i])
    ensures k < |s| ==> !keep(s[k])
  {
    if s == [] || !keep(s[0]) then 0 else 1 + RunLength(s[1..], keep)
  }

  /** The maximal runs of characters satisfying `keep`, left to right: `str.split()` when `keep`
      excludes exactly whitespace, `re.findall("[...]+")` when `keep` is the character class. */
  function Runs(s: string, keep: char -> bool): (rs: seq<string>)
    ensures forall i :: 0 <= i < |rs| ==> rs[i] != []
    ensures forall i, j :: 0 <= i < |rs| && 0 <= j < |rs[i]| ==> keep(rs[i][j])
    decreases |s|
  {
    if s == [] then []
    else if !keep(s[0]) then Runs(s[1..], keep)
    else
      var k := RunLength(s, keep);
      [s[..k]] + Runs(s[k..], keep)
  }

  /** No run exists in a text none of whose characters is kept. */
  lemma {:induction false} RunsNone(s: string, keep: char -> bool)
    requires forall i :: 0 <= i < |s| ==> !keep(s[i])
    ensures Runs(s, keep) == []
    decreases |s|
  {
    if s != [] {
      RunsNone(s[1..], keep);
    }
  }

  /** Some run exists as soon as one character is kept. */
  lemma {:induction false} RunsSome(s: string, keep: char -> bool, i: nat)
    requires i < |s| && keep(s[i])
    ensures Runs(s, keep) != []
    decreases |s|
  {
    if !keep(s[0]) {
      RunsSome(s[1..], keep, i - 1);
    }
  }

  /** Runs of a text made of non-empty runs joined by a separator that is not kept are those runs. */
  lemma {:induction false} RunsOfJoin(ws: seq<string>, sep: char, keep: char -> bool)
    requires !keep(sep)
    requires forall i :: 0 <= i < |ws| ==> ws[i] != []
    requires forall i, j :: 0 <= i < |ws| && 0 <= j < |ws[i]| ==> keep(ws[i][j])
    ensures Runs(Join([sep], ws), keep) == ws
    decreases |ws|
  {
    if |ws| == 1 {
      assert Join([sep], ws) == ws[0];
      RunsOfWord(ws[0], [], keep);
      assert ws[0] + [] == ws[0];
    } else if |ws| > 1 {
      var rest := Join([sep], ws[1..]);
      assert Join([sep], ws) == ws[0] + ([sep] + rest);
      RunsOfWord(ws[0], [sep] + rest, keep);
      assert ([sep] + rest)[1..] == rest;
      RunsOfJoin(ws[1..], sep, keep);
    }
  }

  /** A run of kept characters followed by an unkept one (or nothing) is the first run. */
  lemma RunsOfWord(w: string, tail: string, keep: char -> bool)
    requires w != [] && forall j :: 0 <= j < |w| ==> keep(w[j])
    requires tail == [] || !keep(tail[0])
    ensures Runs(w + tail, keep) == [w] + Runs(tail, keep)
  {
    var s := w + tail;
    assert s[0] == w[0];
    if tail == [] {
      assert s == w;
      RunLengthAll(w, keep);
    } else {
      assert s[..|w|] == w && s[|w|] == tail[0];
      RunLengthPrefix(s, w, keep);
    }
    assert s[..|w|] == w && s[|w|..] == tail;
  }

  /** A text of kept characters is one run. */
  lemma {:induction false} RunLengthAll(w: string, keep: char -> bool)
    requires forall j :: 0 <= j < |w| ==> keep(w[j])
    ensures RunLength(w, keep) == |w|
    decreases |w|
  {
    if w != [] {
      RunLengthAll(w[1..], keep);
    }
  }

  lemma {:induction false} RunLengthPrefix(s: string, w: string, keep: char -> bool)
    requires |w| < |s| && s[..|w|] == w && !keep(s[|w|])
    requires forall j :: 0 <= j < |w| ==> keep(w[j])
    ensures RunLength(s, keep) == |w|
    decreases |w|
  {
    if w != [] {
      assert s[0] == w[0];
      assert s[1..][..|w| - 1] == w[1..];
      RunLengthPrefix(s[1..], w[1..], keep);
    }
  }

  /** `str.split()` with no argument: the maximal runs of non-whitespace. */
  function Words(s: string): seq<string> {
    Runs(s, c => !IsSpace(c))
  }

  /** `" ".join(s.strip().split())`: the words of `s` separated by single spaces. */
  function Collapse(s: string): string {
    Join(" ", Words(s))
  }

  /** A collapsed text: no whitespace at either end and every whitespace character is a single
      space between two non-space characters. */
  predicate Collapsed(r: string) {
    && (r == [] || (!IsSpace(r[0]) && !IsSpace(r[|r| - 1])))
    && forall i :: 0 <= i < |r| && IsSpace(r[i]) ==> r[i] == ' ' && 0 < i < |r| - 1 && !IsSpace(r[i - 1]) && !IsSpace(r[i + 1])
  }

  lemma {:induction false} JoinOfWordsCollapsed(ws: seq<string>)
    requires forall i :: 0 <= i < |ws| ==> ws[i] != []
    requires forall i, j :: 0 <= i < |ws| && 0 <= j < |ws[i]| ==> !IsSpace(ws[i][j])
    ensures Collapsed(Join(" ", ws))
    ensures Join(" ", ws) == [] <==> ws == []
    decreases |ws|
  {
    if |ws| > 1 {
      JoinOfWordsCollapsed(ws[1..]);
      var w := ws[0];
      var rest := Join(" ", ws[1..]);
      var r := Join(" ", ws);
      assert r == w + " " + rest;
      forall i | 0 <= i < |r| && IsSpace(r[i])
        ensures r[i] == ' ' && 0 < i < |r| - 1 && !IsSpace(r[i - 1]) && !IsSpace(r[i + 1])
      {
        if i == |w| {
          assert r[i - 1] == w[|w| - 1];
          assert r[i + 1] == rest[0];
        } else if i > |w| {
          assert r[i] == rest[i - |w| - 1];
          assert r[i - 1] == (if i - 1 == |w| then ' ' else rest[i - |w| - 2]);
        }
      }
    }
  }

  /** Whitespace-collapsing yields a collapsed text, empty exactly for blank input. */
  lemma CollapseShape(s: string)
    ensures Collapsed(Collapse(s))
    ensures Collapse(s) == [] <==> IsBlank(s)
  {
    var ws := Words(s);
    JoinOfWordsCollapsed(ws);
    if IsBlank(s) {
      RunsNone(s, c => !IsSpace(c));
    } else {
      var i :| 0 <= i < |s| && !IsSpace(s[i]);
      RunsSome(s, c => !IsSpace(c), i);
    }
  }

  /** Splitting words that were joined by single spaces gives the words back. */
  lemma WordsOfJoin(ws: seq<string>)
    requires forall i :: 0 <= i < |ws| ==> ws[i] != []
    requires forall i, j :: 0 <= i < |ws| && 0 <= j < |ws[i]| ==> !IsSpace(ws[i][j])
    ensures Words(Join(" ", ws)) == ws
  {
    RunsOfJoin(ws, ' ', c => !IsSpace(c));
  }

  /** Collapsing a collapsed text changes nothing. */
  lemma CollapseIdempotent(s: string)
    ensures Collapse(Collapse(s)) == Collapse(s)
  {
    var ws := Words(s);
    RunsOfJoin(ws, ' ', c => !IsSpace(c));
  }

  /** The decimal digits of a natural number, as `str(n)` prints them. */
  function NatToString(n: nat): (r: string)
    ensures r != []
    ensures forall i :: 0 <= i < |r| ==> IsDigit(r[i])
  {
    if n < 10 then [DigitChar(n)] else NatToString(n / 10) + [DigitChar(n % 10)]
  }

  function DigitChar(d: nat): (c: char)
    requires d < 10
    ensures IsDigit(c)
  {
    ('0' as int + d) as char
  }

  /** The length of the leading run of decimal digits. */
  function DigitRun(s: string): nat {
    RunLength(s, IsDigit)
  }

  lemma DigitRunAfterDigits(digits: string, rest: string)
    requires forall i :: 0 <= i < |digits| ==> IsDigit(digits[i])
    requires rest != [] && !IsDigit(rest[0])
    ensures DigitRun(digits + rest) == |digits|
  {
    RunLengthPrefix(digits + rest, digits, IsDigit);
  }

  /** `str(i)` for any integer. */
  function IntToString(i: int): (r: string)
    ensures r != []
  {
    if i < 0 then "-" + NatToString(-i) else NatToString(i)
  }

  /** The value of a digit character. */
  function DigitValue(c: char): nat
    requires IsDigit(c)
  {
    (c as int - '0' as int) as nat
  }

  /** The value of a run of decimal digits, most significant first. */
  function DigitsValue(s: string): nat
    requires forall i :: 0 <= i < |s| ==> IsDigit(s[i])
  {
    if s == [] then 0 else 10 * DigitsValue(s[..|s| - 1]) + DigitValue(s[|s| - 1])
  }

  /** Reading back the digits `str(n)` prints gives `n`. */
  lemma {:induction false} DigitsValueOfNat(n: nat)
    ensures DigitsValue(NatToString(n)) == n
  {
    var s := NatToString(n);
    if n >= 10 {
      DigitsValueOfNat(n / 10);
      assert s[..|s| - 1] == NatToString(n / 10);
    }
  }

  function Pow10(k: nat): (r: nat)
    ensures r > 0
  {
    if k == 0 then 1 else 10 * Pow10(k - 1)
  }

  /** `float(s)` on a string, for plain decimal notation: surrounding whitespace, an optional
      sign, digits with at most one `.` and at least one digit. `None` stands for the
      `ValueError` Python raises. */
  function ParseDecimal(s: string): (r: Option<real>)
  {
    var t := Strip(s);
    if t != [] && (t[0] == '-' || t[0] == '+') then
      match ParseUnsigned(t[1..])
      case Some(x) => Some(if t[0] == '-' then -x else x)
      case None => None
    else ParseUnsigned(t)
  }

  /** The leading run of digits of `u` and its value. */
  function LeadingValue(u: string): real {
    var k := DigitRun(u);
    assert forall i :: 0 <= i < k ==> IsDigit(u[..k][i]);
    DigitsValue(u[..k]) as real
  }

  /** `float` on unsigned decimal notation: digits, optionally `.` and digits, at least one digit. */
  function ParseUnsigned(u: string): Option<real> {
    var k := DigitRun(u);
    if k == |u| then
      (if k == 0 then None else Some(LeadingValue(u)))
    else if u[k] != '.' then None
    else
      var frac := u[k + 1..];
      var m := DigitRun(frac);
      if m != |frac| || k + m == 0 then None
      else Some(LeadingValue(u) + LeadingValue(frac) / Pow10(m) as real)
  }

  /** A run of digits is read as its value: `float(str(n)) == n`. */
  lemma ParseDecimalOfNat(n: nat)
    ensures ParseDecimal(NatToString(n)) == Some(n as real)
  {
    var s := NatToString(n);
    StripUntrimmed(s);
    DigitsValueOfNat(n);
    assert s[..|s|] == s;
  }

  /** `lower` works character by character, so it distributes over concatenation. */
  lemma LowerConcat(a: string, b: string)
    ensures Lower(a + b) == Lower(a) + Lower(b)
  {
  }
}
