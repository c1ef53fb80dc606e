/** The JavaScript text operations the Expo config plugin relies on, over
    strings of code points: the `\s` and line-terminator classes, the
    multiline `^`, the global scan of `/^import\s+.*$/gm`, `lastIndexOf`,
    `indexOf`, the first match of the class-end and fallback patterns, and the
    global replacement `/^  /gm`. */
module PluginText {
  import opened Common

  /** The characters `.` does not match and after which a multiline `^` matches. */
  predicate IsLineTerminator(c: char) {
    c == '\n' || c == '\r' || c == '\U{2028}' || c == '\U{2029}'
  }

  /** The characters JavaScript's `\s` matches. */
  predicate IsJsSpace(c: char) {
    c == '\t' || c == '\n' || c == '\U{B}' || c == '\U{C}' || c == '\r' || c == ' '
    || c == '\U{A0}' || c == '\U{1680}' || ('\U{2000}' <= c <= '\U{200A}')
    || c == '\U{2028}' || c == '\U{2029}' || c == '\U{202F}' || c == '\U{205F}'
    || c == '\U{3000}' || c == '\U{FEFF}'
  }

  lemma LineTerminatorsAreSpace(c: char)
    requires IsLineTerminator(c)
    ensures IsJsSpace(c)
  {
  }

  /** Where `^` matches under the `m` flag. */
  predicate LineStart(s: string, p: int) {
    p == 0 || (0 < p <= |s| && IsLineTerminator(s[p - 1]))
  }

  /** The end of the run of `\s` characters that begins at `i`. */
  function SpaceRunEnd(s: string, i: nat): (j: nat)
    requires i <= |s|
    ensures i <= j <= |s|
    ensures forall k :: i <= k < j ==> IsJsSpace(s[k])
    ensures j == |s| || !IsJsSpace(s[j])
    decreases |s| - i
  {
    if i == |s| || !IsJsSpace(s[i]) then i else SpaceRunEnd(s, i + 1)
  }

  /** The end of the line that contains `i`: the first terminator at or after
      `i`, or the end of the text. */
  function LineEnd(s: string, i: nat): (j: nat)
    requires i <= |s|
    ensures i <= j <= |s|
    ensures forall k :: i <= k < j ==> !IsLineTerminator(s[k])
    ensures j == |s| || IsLineTerminator(s[j])
    decreases |s| - i
  {
    if i == |s| || IsLineTerminator(s[i]) then i else LineEnd(s, i + 1)
  }

  /** A match of `/^kw\s+.*$/m` begins at `p`. */
  predicate ImportAt(s: string, kw: string, p: nat) {
    LineStart(s, p) && p + |kw| < |s| && s[p..p + |kw|] == kw && IsJsSpace(s[p + |kw|])
  }

  /** Where that match ends: the greedy `\s+` may run across lines, then `.*`
      takes the rest of the line it stops on. */
  function ImportEnd(s: string, kw: string, p: nat): (e: nat)
    requires ImportAt(s, kw, p)
    ensures p + |kw| < e <= |s|
    ensures e == |s| || IsLineTerminator(s[e])
  {
    LineEnd(s, SpaceRunEnd(s, p + |kw|))
  }

  datatype Span = Span(start: nat, end: nat)

  /** The last match `String.match` returns for `/^kw\s+.*$/gm`, scanning from
      `pos` with `last` the match found so far: each search resumes where the
      previous match ended. */
  function LastImport(s: string, kw: string, pos: nat, last: Option<Span>): (r: Option<Span>)
    requires pos <= |s|
    requires last.Some? ==> last.value.start < last.value.end <= pos
    ensures r.Some? ==> r.value.start < r.value.end <= |s|
    ensures r.Some? && r != last ==> pos <= r.value.start && ImportAt(s, kw, r.value.start)
                                     && r.value.end == ImportEnd(s, kw, r.value.start)
    decreases |s| - pos
  {
    if pos == |s| then last
    else if ImportAt(s, kw, pos) then
      var e := ImportEnd(s, kw, pos);
      LastImport(s, kw, e, Some(Span(pos, e)))
    else LastImport(s, kw, pos + 1, last)
  }

  /** The scan finds a match exactly when some line from `pos` on begins with
      `kw` and a `\s` character. */
  lemma {:induction false} LastImportFinds(s: string, kw: string, pos: nat, last: Option<Span>)
    requires pos <= |s|
    requires last.Some? ==> last.value.start < last.value.end <= pos
    ensures LastImport(s, kw, pos, last).Some? <==>
              last.Some? || exists p :: pos <= p < |s| && ImportAt(s, kw, p)
    decreases |s| - pos
  {
    if pos == |s| {
    } else if ImportAt(s, kw, pos) {
      var e := ImportEnd(s, kw, pos);
      LastImportFinds(s, kw, e, Some(Span(pos, e)));
    } else {
      LastImportFinds(s, kw, pos + 1, last);
      if exists p :: pos <= p < |s| && ImportAt(s, kw, p) {
        var p :| pos <= p < |s| && ImportAt(s, kw, p);
        assert pos + 1 <= p;
      }
    }
  }

  /** The whole-text scan: a match exists iff some line begins with `kw` and
      a `\s` character, and the match it reports is one. */
  lemma ImportLines(s: string, kw: string)
    ensures LastImport(s, kw, 0, None).Some? <==> exists p :: 0 <= p < |s| && ImportAt(s, kw, p)
    ensures LastImport(s, kw, 0, None).Some? ==>
              ImportAt(s, kw, LastImport(s, kw, 0, None).value.start)
              && LastImport(s, kw, 0, None).value.end == ImportEnd(s, kw, LastImport(s, kw, 0, None).value.start)
  {
    LastImportFinds(s, kw, 0, None);
  }

  /** The last index below `k` at which `w` occurs. */
  function LastIndexBelow(s: string, w: string, k: nat): (r: Option<nat>)
    ensures r.Some? ==> r.value < k && OccursAt(s, w, r.value)
    ensures r.Some? ==> forall j :: r.value < j < k ==> !OccursAt(s, w, j)
    ensures r.None? ==> forall j :: 0 <= j < k ==> !OccursAt(s, w, j)
  {
    if k == 0 then None
    else if OccursAt(s, w, k - 1) then Some(k - 1)
    else LastIndexBelow(s, w, k - 1)
  }

  /** `s.lastIndexOf(w)`: the last index at which `w` occurs. */
  function LastIndexOf(s: string, w: string): (r: Option<nat>)
    ensures r.Some? ==> OccursAt(s, w, r.value) && forall j :: r.value < j ==> !OccursAt(s, w, j)
    ensures r.None? <==> !Contains(s, w)
  {
    LastIndexBelow(s, w, |s| + 1)
  }

  /** `s.indexOf(c)`, from index `i` on. */
  function IndexOfFrom(s: string, c: char, i: nat): (r: Option<nat>)
    requires i <= |s|
    ensures r.Some? ==> i <= r.value < |s| && s[r.value] == c
    ensures r.Some? ==> forall k :: i <= k < r.value ==> s[k] != c
    ensures r.None? ==> forall k :: i <= k < |s| ==> s[k] != c
    decreases |s| - i
  {
    if i == |s| then None else if s[i] == c then Some(i) else IndexOfFrom(s, c, i + 1)
  }

  /** A match of `/(\s+)\}(?=\s*(?:@end|$))/` (no `m` flag) begins at `p`:
      a `\s` run, a closing brace, then only `\s` up to "@end" or the end of the
      text. The greedy run cannot give characters back, since none of them is a
      brace. */
  predicate ClassEndAt(s: string, p: nat) {
    p < |s| && IsJsSpace(s[p])
    && var q := SpaceRunEnd(s, p);
       q < |s| && s[q] == '}'
       && var r := SpaceRunEnd(s, q + 1);
          r == |s| || OccursAt(s, "@end", r)
  }

  /** The leftmost class-end match at or after `pos`. */
  function FirstClassEnd(s: string, pos: nat): (r: Option<nat>)
    requires pos <= |s|
    ensures r.Some? ==> pos <= r.value && ClassEndAt(s, r.value)
    ensures r.Some? ==> forall p :: pos <= p < r.value ==> !ClassEndAt(s, p)
    ensures r.None? ==> forall p :: pos <= p ==> !ClassEndAt(s, p)
    decreases |s| - pos
  {
    if pos == |s| then None
    else if ClassEndAt(s, pos) then Some(pos)
    else FirstClassEnd(s, pos + 1)
  }

  /** Inside one `\s` run every position reaches the same end. */
  lemma SpaceRunShared(s: string, p: nat)
    requires 0 < p < |s| && IsJsSpace(s[p - 1])
    ensures SpaceRunEnd(s, p - 1) == SpaceRunEnd(s, p)
  {
  }

  /** A class-end match preceded by `\s` also matches one place earlier. */
  lemma ClassEndExtendsBack(s: string, p: nat)
    requires 0 < p && ClassEndAt(s, p) && IsJsSpace(s[p - 1])
    ensures ClassEndAt(s, p - 1)
  {
    SpaceRunShared(s, p);
  }

  /** The captured indent is the whole `\s` run before the brace: the
      leftmost match cannot start inside a run. */
  lemma ClassEndTakesWholeRun(s: string)
    requires FirstClassEnd(s, 0).Some?
    ensures var p := FirstClassEnd(s, 0).value;
            p == 0 || !IsJsSpace(s[p - 1])
  {
    var p := FirstClassEnd(s, 0).value;
    if p > 0 && IsJsSpace(s[p - 1]) {
      ClassEndExtendsBack(s, p);
      assert false;
    }
  }

  /** A match of `/^(@end|}$)/m` begins at `p`: a line that begins with
      "@end", or a line that is exactly "}". */
  predicate FallbackAt(s: string, p: nat) {
    LineStart(s, p)
    && (OccursAt(s, "@end", p)
        || (p < |s| && s[p] == '}' && (p + 1 == |s| || IsLineTerminator(s[p + 1]))))
  }

  function FirstFallback(s: string, pos: nat): (r: Option<nat>)
    requires pos <= |s|
    ensures r.Some? ==> pos <= r.value < |s| && FallbackAt(s, r.value)
    ensures r.Some? ==> forall p :: pos <= p < r.value ==> !FallbackAt(s, p)
    ensures r.None? ==> forall p :: pos <= p ==> !FallbackAt(s, p)
    decreases |s| - pos
  {
    if pos == |s| then None
    else if FallbackAt(s, pos) then Some(pos)
    else FirstFallback(s, pos + 1)
  }

  /** The text the fallback pattern captured at `p`. */
  function FallbackGroup(s: string, p: nat): (g: string)
    requires FallbackAt(s, p)
    ensures g == "@end" || g == "}"
    ensures OccursAt(s, g, p)
  {
    if OccursAt(s, "@end", p) then "@end"
    else assert s[p..p + 1] == "}"; "}"
  }

  /** `s.replace(/^(@end|}$)/m, text + '\n$1')`: the first such line gets
      `text` and a line break in front of it; the text has no `$` of its own.
      Without such a line nothing changes. */
  function InsertBeforeEnd(s: string, text: string): (r: string)
    ensures FirstFallback(s, 0).None? ==> r == s
    ensures FirstFallback(s, 0).Some? ==>
              var p := FirstFallback(s, 0).value;
              r == s[..p] + text + "\n" + s[p..]
  {
    match FirstFallback(s, 0)
    case None => s
    case Some(p) =>
      var g := FallbackGroup(s, p);
      assert s[p..] == g + s[p + |g|..];
      s[..p] + text + "\n" + g + s[p + |g|..]
  }

  /** The global replacement of two spaces at a line start by `indent`, from
      index `i` of `t` on; `atLineStart` says whether `^` matches at `i`. A
      match consumes two characters, so the search resumes past them. */
  function Reindent(t: string, indent: string, i: nat, atLineStart: bool): string
    requires i <= |t|
    decreases |t| - i
  {
    if i == |t| then ""
    else if atLineStart && i + 1 < |t| && t[i] == ' ' && t[i + 1] == ' ' then indent + Reindent(t, indent, i + 2, false)
    else [t[i]] + Reindent(t, indent, i + 1, IsLineTerminator(t[i]))
  }

  /** `t.replace(/^  /gm, indent)`. */
  function ReplaceLeadingSpaces(t: string, indent: string): string {
    Reindent(t, indent, 0, true)
  }

  /** Whether `^` matches at the end of `a` once the replacement has reached
      it from index `i` in state `st`. */
  function StateAfter(a: string, i: nat, st: bool): bool
    requires i <= |a|
  {
    if i == |a| then st else IsLineTerminator(a[|a| - 1])
  }

  /** The replacement over `a + b` past the end of `a` is the replacement
      over `b`. */
  lemma {:induction false} ReindentShift(a: string, b: string, indent: string, j: nat, st: bool)
    requires j <= |b|
    ensures Reindent(a + b, indent, |a| + j, st) == Reindent(b, indent, j, st)
    decreases |b| - j
  {
    var t := a + b;
    if j < |b| {
      assert t[|a| + j] == b[j];
      if st && j + 1 < |b| && b[j] == ' ' && b[j + 1] == ' ' {
        assert t[|a| + j + 1] == b[j + 1];
        ReindentShift(a, b, indent, j + 2, false);
      } else {
        assert j + 1 < |b| ==> t[|a| + j + 1] == b[j + 1];
        ReindentShift(a, b, indent, j + 1, IsLineTerminator(b[j]));
      }
    }
  }

  /** The replacement splits at any point not followed by a space: no match
      straddles it. */
  lemma {:induction false} ReindentSplit(a: string, b: string, indent: string, i: nat, st: bool)
    requires i <= |a|
    requires |b| == 0 || b[0] != ' '
    ensures Reindent(a + b, indent, i, st) == Reindent(a, indent, i, st) + Reindent(b, indent, 0, StateAfter(a, i, st))
    decreases |a| - i, 1
  {
    if i == |a| {
      ReindentShift(a, b, indent, 0, st);
    } else if st && i + 1 < |a| && a[i] == ' ' && a[i + 1] == ' ' {
      ReindentSplitAtMatch(a, b, indent, i);
    } else if i + 1 < |a| {
      ReindentSplitAtChar(a, b, indent, i, st);
    } else {
      ReindentSplitAtLast(a, b, indent, st);
    }
  }

  /** `ReindentSplit` where two leading spaces of `a` are replaced. */
  lemma {:induction false} ReindentSplitAtMatch(a: string, b: string, indent: string, i: nat)
    requires i + 1 < |a| && a[i] == ' ' && a[i + 1] == ' '
    requires |b| == 0 || b[0] != ' '
    ensures Reindent(a + b, indent, i, true) == Reindent(a, indent, i, true) + Reindent(b, indent, 0, StateAfter(a, i, true))
    decreases |a| - i, 0
  {
    var t := a + b;
    assert t[i] == a[i] && t[i + 1] == a[i + 1];
    assert Reindent(t, indent, i, true) == indent + Reindent(t, indent, i + 2, false);
    ReindentSplit(a, b, indent, i + 2, false);
    assert StateAfter(a, i + 2, false) == StateAfter(a, i, true);
  }

  /** `ReindentSplit` where a character of `a` other than its last is copied. */
  lemma {:induction false} ReindentSplitAtChar(a: string, b: string, indent: string, i: nat, st: bool)
    requires i + 1 < |a|
    requires !(st && a[i] == ' ' && a[i + 1] == ' ')
    requires |b| == 0 || b[0] != ' '
    ensures Reindent(a + b, indent, i, st) == Reindent(a, indent, i, st) + Reindent(b, indent, 0, StateAfter(a, i, st))
    decreases |a| - i, 0
  {
    var t := a + b;
    var next := IsLineTerminator(a[i]);
    assert Reindent(t, indent, i, st) == [a[i]] + Reindent(t, indent, i + 1, next) by {
      assert t[i] == a[i] && t[i + 1] == a[i + 1];
    }
    assert Reindent(a, indent, i, st) == [a[i]] + Reindent(a, indent, i + 1, next);
    ReindentSplit(a, b, indent, i + 1, next);
    var x := Reindent(a, indent, i + 1, next);
    var y := Reindent(b, indent, 0, StateAfter(a, i, st));
    assert [a[i]] + (x + y) == ([a[i]] + x) + y;
  }

  /** `ReindentSplit` at the last character of `a`. */
  lemma ReindentSplitAtLast(a: string, b: string, indent: string, st: bool)
    requires |a| > 0
    requires |b| == 0 || b[0] != ' '
    ensures var i := |a| - 1;
            Reindent(a + b, indent, i, st) == Reindent(a, indent, i, st) + Reindent(b, indent, 0, StateAfter(a, i, st))
  {
    var t := a + b;
    var i := |a| - 1;
    var next := IsLineTerminator(a[i]);
    assert Reindent(t, indent, i, st) == [a[i]] + Reindent(t, indent, i + 1, next) by {
      assert t[i] == a[i];
      assert |b| > 0 ==> t[i + 1] == b[0];
    }
    ReindentShift(a, b, indent, 0, next);
  }

  /** Text without spaces and line terminators. */
  predicate Plain(w: string) {
    ' ' !in w && '\n' !in w && '\r' !in w && '\U{2028}' !in w && '\U{2029}' !in w
  }

  /** Plain text comes through the replacement unchanged. */
  lemma {:induction false} ReindentKeepsWord(w: string, indent: string, i: nat, st: bool)
    requires i <= |w|
    requires Plain(w)
    ensures Reindent(w, indent, i, st) == w[i..]
    decreases |w| - i
  {
    if i < |w| {
      assert w[i] in w;
      ReindentKeepsWord(w, indent, i + 1, false);
      assert w[i..] == [w[i]] + w[i + 1..];
    }
  }

  /** An indent of two spaces leaves the text as it is. */
  lemma {:induction false} ReindentByTwoSpaces(t: string, i: nat, st: bool)
    requires i <= |t|
    ensures Reindent(t, "  ", i, st) == t[i..]
    decreases |t| - i
  {
    if i == |t| {
    } else if st && i + 1 < |t| && t[i] == ' ' && t[i + 1] == ' ' {
      ReindentByTwoSpaces(t, i + 2, false);
      assert t[i..] == "  " + t[i + 2..];
    } else {
      ReindentByTwoSpaces(t, i + 1, IsLineTerminator(t[i]));
      assert t[i..] == [t[i]] + t[i + 1..];
    }
  }

  /** A word free of spaces and line terminators that follows a
      non-space character keeps its occurrence through the replacement. */
  lemma ReindentKeepsInnerWord(a: string, w: string, c: string, indent: string)
    requires |w| > 0 && Plain(w)
    requires |c| == 0 || c[0] != ' '
    ensures Contains(ReplaceLeadingSpaces(a + w + c, indent), w)
  {
    ReindentSplit(a + w, c, indent, 0, true);
    ReindentSplit(a, w, indent, 0, true);
    ReindentKeepsWord(w, indent, 0, StateAfter(a, 0, true));
    assert w[|w| - 1] in w;
    ContainsWhole(Reindent(a, indent, 0, true), w, Reindent(c, indent, 0, StateAfter(a + w, 0, true)));
  }
}
