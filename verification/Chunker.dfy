/**
 * The paragraph chunker of agent/travel_agent/rag/text.py: paragraphs separated by blank lines,
 * overlapping windows over long paragraphs, and a packing loop that carries an overlap prefix.
 */
module Chunker {
  import opened Common

  const MAX_CHUNK_CHARS := 8000

  /** `str.isspace` of one character, which is also what the class \s matches. */
  predicate IsSpace(c: char) {
    var n := c as int;
    || 9 <= n <= 13 || 28 <= n <= 32 || n == 0x85 || n == 0xA0 || n == 0x1680
    || 0x2000 <= n <= 0x200A || n == 0x2028 || n == 0x2029 || n == 0x202F || n == 0x205F || n == 0x3000
  }

  // ---------------------------------------------------------------------------------------------
  // Stripping

  function LeftTrim(s: string): string {
    if s != "" && IsSpace(s[0]) then LeftTrim(s[1..]) else s
  }

  function RightTrim(s: string): string {
    if s != "" && IsSpace(s[|s| - 1]) then RightTrim(s[..|s| - 1]) else s
  }

  /** `str.strip`. */
  function Strip(s: string): string {
    RightTrim(LeftTrim(s))
  }

  predicate Trimmed(s: string) {
    s != "" ==> !IsSpace(s[0]) && !IsSpace(s[|s| - 1])
  }

  predicate Blank(s: string) {
    forall i :: 0 <= i < |s| ==> IsSpace(s[i])
  }

  /** Stripping keeps one stretch of the text and removes only white space around it. */
  lemma {:induction false} LeftTrimSpan(s: string) returns (lo: nat)
    ensures lo <= |s| && LeftTrim(s) == s[lo..] && Blank(s[..lo])
    ensures lo < |s| ==> !IsSpace(s[lo])
  {
    if s != "" && IsSpace(s[0]) {
      var n := LeftTrimSpan(s[1..]);
      lo := n + 1;
      assert s[1..][n..] == s[lo..];
      forall i | 0 <= i < lo
        ensures IsSpace(s[..lo][i])
      {
        assert i > 0 ==> s[i] == s[1..][..n][i - 1];
      }
    } else {
      lo := 0;
    }
  }

  lemma {:induction false} RightTrimSpan(s: string) returns (hi: nat)
    ensures hi <= |s| && RightTrim(s) == s[..hi] && Blank(s[hi..])
    ensures hi > 0 ==> !IsSpace(s[hi - 1])
  {
    if s != "" && IsSpace(s[|s| - 1]) {
      var init := s[..|s| - 1];
      hi := RightTrimSpan(init);
      assert init[..hi] == s[..hi];
      forall i | 0 <= i < |s[hi..]|
        ensures IsSpace(s[hi..][i])
      {
        assert i + hi < |s| - 1 ==> s[hi..][i] == init[hi..][i];
      }
    } else {
      hi := |s|;
    }
  }

  lemma StripSpan(s: string) returns (lo: nat, hi: nat)
    ensures lo <= hi <= |s| && Strip(s) == s[lo..hi] && Trimmed(Strip(s))
    ensures forall j :: 0 <= j < lo || hi <= j < |s| ==> IsSpace(s[j])
  {
    lo := LeftTrimSpan(s);
    var t := s[lo..];
    var m := RightTrimSpan(t);
    hi := lo + m;
    assert t[..m] == s[lo..hi];
    assert s[hi..] == t[m..];
    if m > 0 {
      assert s[lo..hi][0] == s[lo];
      assert s[lo..hi][m - 1] == t[m - 1];
    }
    forall j | 0 <= j < lo || hi <= j < |s|
      ensures IsSpace(s[j])
    {
      assert j < lo ==> s[j] == s[..lo][j];
      assert j >= hi ==> s[j] == t[m..][j - hi];
    }
  }

  lemma SliceOfSlice(s: string, from: nat, to: nat, a: nat, b: nat)
    requires from <= to <= |s| && a <= b <= to - from
    ensures s[from..to][a..b] == s[from + a..from + b]
  {
    var t := s[from..to];
    forall k | a <= k < b
      ensures t[k] == s[from + k]
    {
    }
    assert |t[a..b]| == |s[from + a..from + b]|;
    forall k | 0 <= k < b - a
      ensures t[a..b][k] == s[from + a..from + b][k]
    {
      assert t[a..b][k] == t[a + k];
    }
  }

  /** Stripping a stretch of `s` leaves a stretch that still holds every other character. */
  lemma StripWithin(s: string, from: nat, to: nat, i: nat) returns (lo: nat, hi: nat)
    requires from <= i < to <= |s| && !IsSpace(s[i])
    ensures from <= lo <= i < hi <= to && Strip(s[from..to]) == s[lo..hi]
  {
    hide Strip;
    var t := s[from..to];
    var a, b := StripSpan(t);
    assert t[i - from] == s[i];
    assert a <= i - from < b;
    lo, hi := from + a, from + b;
    SliceOfSlice(s, from, to, a, b);
  }

  // ---------------------------------------------------------------------------------------------
  // Paragraphs: the pieces of `re.split(r"\n\s*\n", content)`

  /** The first index from `i` on that is not white space. */
  function RunEnd(s: string, i: nat): (e: nat)
    requires i <= |s|
    ensures i <= e <= |s|
    ensures forall j :: i <= j < e ==> IsSpace(s[j])
    ensures e < |s| ==> !IsSpace(s[e])
    decreases |s| - i
  {
    if i < |s| && IsSpace(s[i]) then RunEnd(s, i + 1) else i
  }

  /** One past the last newline in `lo..hi`, or `lo` when there is none. */
  function AfterLastNewline(s: string, lo: nat, hi: nat): (e: nat)
    requires lo <= hi <= |s|
    ensures lo <= e <= hi
    ensures e > lo ==> s[e - 1] == '\n'
    ensures forall j :: e <= j < hi ==> s[j] != '\n'
  {
    if lo == hi then lo else if s[hi - 1] == '\n' then hi else AfterLastNewline(s, lo, hi - 1)
  }

  /** The end of the separator that starts at `i`: greedy white space up to its last newline. */
  function SeparatorEnd(s: string, i: nat): (e: nat)
    requires i < |s|
    ensures i < e <= |s|
    ensures forall j :: i < j < e ==> IsSpace(s[j])
  {
    AfterLastNewline(s, i + 1, RunEnd(s, i + 1))
  }

  predicate IsSeparator(s: string, i: nat)
    requires i < |s|
  {
    s[i] == '\n' && SeparatorEnd(s, i) > i + 1
  }

  /** A separator starts where a newline is followed, across white space only, by another newline. */
  lemma SeparatorMeaning(s: string, i: nat)
    requires i < |s|
    ensures IsSeparator(s, i) <==>
              s[i] == '\n' && exists j :: i < j < |s| && s[j] == '\n' && forall m :: i < m < j ==> IsSpace(s[m])
  {
  }

  function NextSeparator(s: string, i: nat): (e: nat)
    requires i <= |s|
    ensures i <= e <= |s|
    ensures e < |s| ==> IsSeparator(s, e)
    ensures forall j :: i <= j < e ==> !IsSeparator(s, j)
    decreases |s| - i
  {
    if i == |s| || IsSeparator(s, i) then i else NextSeparator(s, i + 1)
  }

  datatype Span = Span(lo: nat, hi: nat)

  predicate In(s: string, p: Span) {
    p.lo <= p.hi <= |s|
  }

  predicate AllIn(s: string, ps: seq<Span>) {
    forall i :: 0 <= i < |ps| ==> In(s, ps[i])
  }

  function Pieces(s: string, from: nat): (ps: seq<Span>)
    requires from <= |s|
    ensures AllIn(s, ps)
    decreases |s| - from
  {
    var i := NextSeparator(s, from);
    if i == |s| then [Span(from, i)] else [Span(from, i)] + Pieces(s, SeparatorEnd(s, i))
  }

  /** Splitting loses only white space: every other character lies in a piece. */
  lemma {:induction false} PiecesCover(s: string, from: nat, i: nat)
    requires from <= i < |s| && !IsSpace(s[i])
    ensures exists p :: p in Pieces(s, from) && p.lo <= i < p.hi
    decreases |s| - from
  {
    var e := NextSeparator(s, from);
    if i < e {
      assert Span(from, e) in Pieces(s, from);
    } else {
      assert i != e by {
        assert IsSpace('\n');
      }
      var rest := SeparatorEnd(s, e);
      assert i >= rest;
      PiecesCover(s, rest, i);
      var p :| p in Pieces(s, rest) && p.lo <= i < p.hi;
      assert p in Pieces(s, from);
    }
  }

  /** The stripped pieces that are not empty. */
  function Stripped(s: string, ps: seq<Span>): seq<string>
    requires AllIn(s, ps)
  {
    if ps == [] then []
    else
      var t := Strip(s[ps[0].lo..ps[0].hi]);
      (if t != "" then [t] else []) + Stripped(s, ps[1..])
  }

  function Paragraphs(content: string): seq<string> {
    Stripped(content, Pieces(content, 0))
  }

  predicate AllTrimmed(us: seq<string>) {
    forall u :: u in us ==> Trimmed(u)
  }

  lemma {:induction false} StrippedTrimmed(s: string, ps: seq<Span>)
    requires AllIn(s, ps)
    ensures AllTrimmed(Stripped(s, ps)) && "" !in Stripped(s, ps)
  {
    if ps != [] {
      var _, _ := StripSpan(s[ps[0].lo..ps[0].hi]);
      StrippedTrimmed(s, ps[1..]);
    }
  }

  /** A character of a piece that is not white space survives the stripping, in place. */
  lemma {:induction false} StrippedCovers(s: string, ps: seq<Span>, p: Span, i: nat)
    requires AllIn(s, ps)
    requires p in ps && p.lo <= i < p.hi <= |s| && !IsSpace(s[i])
    ensures exists lo: nat, hi: nat :: lo <= i < hi <= |s| && s[lo..hi] in Stripped(s, ps)
  {
    hide Strip, IsSpace;
    if ps[0] == p {
      var lo, hi := StripWithin(s, p.lo, p.hi, i);
      assert Stripped(s, ps)[0] == s[lo..hi];
    } else {
      StrippedCovers(s, ps[1..], p, i);
      var lo: nat, hi: nat :| lo <= i < hi <= |s| && s[lo..hi] in Stripped(s, ps[1..]);
      assert s[lo..hi] in Stripped(s, ps);
    }
  }

  // ---------------------------------------------------------------------------------------------
  // Windows over a long paragraph

  /** The spans of the window loop from `start` on. */
  function WindowSpans(n: nat, target: nat, overlap: nat, start: nat): (ws: seq<Span>)
    requires overlap < target && start < n
    ensures ws != []
    decreases n - start
  {
    var end := Min(n, start + target);
    if end >= n then [Span(start, end)] else [Span(start, end)] + WindowSpans(n, target, overlap, Max(start + 1, end - overlap))
  }

  predicate WindowOk(w: Span, n: nat, target: nat) {
    w.lo < w.hi <= n && w.hi - w.lo <= target
  }

  /** The earlier window is full, and the two share exactly `overlap` characters. */
  predicate Neighbours(w: Span, next: Span, target: nat, overlap: nat) {
    w.hi - w.lo == target && w.hi - next.lo == overlap
  }

  /**
   * The windows begin at `start`, end at `n`, are `target` long except perhaps the last, and
   * neighbours overlap in exactly `overlap` characters.
   */
  lemma {:induction false} WindowShape(n: nat, target: nat, overlap: nat, start: nat)
    requires overlap < target && start < n
    ensures var ws := WindowSpans(n, target, overlap, start);
            && ws[0].lo == start && ws[|ws| - 1].hi == n
            && (forall i :: 0 <= i < |ws| ==> WindowOk(ws[i], n, target))
            && (forall i :: 1 <= i < |ws| ==> Neighbours(ws[i - 1], ws[i], target, overlap))
    decreases n - start
  {
    var end := Min(n, start + target);
    if end < n {
      var next := Max(start + 1, end - overlap);
      var rest := WindowSpans(n, target, overlap, next);
      WindowShape(n, target, overlap, next);
    }
  }

  /** Every index of the paragraph lies in a window. */
  lemma {:induction false} WindowsCover(n: nat, target: nat, overlap: nat, start: nat, i: nat)
    requires overlap < target && start <= i < n
    ensures exists w :: w in WindowSpans(n, target, overlap, start) && w.lo <= i < w.hi <= n
    decreases n - start
  {
    var end := Min(n, start + target);
    var ws := WindowSpans(n, target, overlap, start);
    if i < end {
      assert ws[0] == Span(start, end);
    } else {
      var next := Max(start + 1, end - overlap);
      WindowsCover(n, target, overlap, next, i);
      var w :| w in WindowSpans(n, target, overlap, next) && w.lo <= i < w.hi <= n;
      assert w in ws;
    }
  }

  function Slices(p: string, ws: seq<Span>): seq<string> {
    seq(|ws|, i requires 0 <= i < |ws| => if In(p, ws[i]) then Strip(p[ws[i].lo..ws[i].hi]) else "")
  }

  function UnitsOf(p: string, target: nat, overlap: nat): seq<string>
    requires overlap < target
  {
    if |p| <= target then [p] else Slices(p, WindowSpans(|p|, target, overlap, 0))
  }

  function Units(ps: seq<string>, target: nat, overlap: nat): seq<string>
    requires overlap < target
  {
    if ps == [] then [] else UnitsOf(ps[0], target, overlap) + Units(ps[1..], target, overlap)
  }

  // ---------------------------------------------------------------------------------------------
  // Packing

  function Suffix(s: string, n: nat): string {
    if |s| <= n then s else s[|s| - n..]
  }

  function Joined(a: string, b: string): string {
    if a != "" then Strip(a + "\n\n" + b) else b
  }

  /** The text a new chunk starts with: the overlap of the old one, then the unit. */
  function Restart(current: string, unit: string, overlap: nat): string {
    Joined(if overlap > 0 then Strip(Suffix(current, overlap)) else "", unit)
  }

  /** The packing loop from `current` on. */
  function Pack(units: seq<string>, current: string, target: nat, overlap: nat): seq<string> {
    if units == [] then if current != "" then [current] else []
    else
      var candidate := Joined(current, units[0]);
      if |candidate| <= target then Pack(units[1..], candidate, target, overlap)
      else if current != "" then [current] + Pack(units[1..], Restart(current, units[0], overlap), target, overlap)
      else Pack(units[1..], units[0], target, overlap)
  }

  /** `u` is a contiguous part of `c`. */
  ghost predicate Part(u: string, c: string) {
    exists a, b :: c == a + u + b
  }

  lemma PartAt(u: string, c: string, a: string, b: string)
    requires c == a + u + b
    ensures Part(u, c)
  {
  }

  lemma PartTrans(u: string, v: string, w: string)
    requires Part(u, v) && Part(v, w)
    ensures Part(u, w)
  {
    var a, b :| v == a + u + b;
    var c, d :| w == c + v + d;
    assert w == (c + a) + u + (b + d);
  }

  lemma PartRefl(u: string)
    ensures Part(u, u)
  {
    assert u == "" + u + "";
  }

  /** Joining two stripped texts keeps both as contiguous parts and is stripped itself. */
  lemma JoinedParts(a: string, b: string)
    requires Trimmed(a) && Trimmed(b)
    ensures a == "" ==> Joined(a, b) == b
    ensures Trimmed(Joined(a, b)) && |Joined(a, b)| <= |a| + |b| + 2
    ensures Part(a, Joined(a, b)) && Part(b, Joined(a, b))
    ensures a != "" ==> |Joined(a, b)| > 0
  {
    if a == "" {
      PartRefl(b);
      PartAt(a, b, "", b);
    } else if b == "" {
      var t := a + "\n\n";
      assert a + "\n\n" + b == t;
      TrailingNewlines(a);
      PartRefl(a);
      PartAt(b, a, a, "");
    } else {
      var t := a + "\n\n" + b;
      assert t[0] == a[0] && t[|t| - 1] == b[|b| - 1];
      PartAt(a, t, "", "\n\n" + b);
      PartAt(b, t, a + "\n\n", "");
      assert t == "" + a + ("\n\n" + b);
      assert t == (a + "\n\n") + b + "";
    }
  }

  lemma TrailingNewlines(a: string)
    requires a != "" && Trimmed(a)
    ensures Strip(a + "\n\n") == a
  {
    var t := a + "\n\n";
    assert IsSpace('\n');
    assert LeftTrim(t) == t;
    assert t[..|t| - 1] == a + "\n";
    assert (a + "\n")[..|a|] == a;
    assert RightTrim(t) == RightTrim(a + "\n") == RightTrim(a) == a;
  }

  // ---------------------------------------------------------------------------------------------
  // What packing keeps

  ghost predicate Holds(chunks: seq<string>, u: string) {
    exists c :: c in chunks && Part(u, c)
  }

  lemma HoldsMore(chunks: seq<string>, more: seq<string>, u: string, v: string)
    requires Part(u, v) && Holds(chunks, v)
    ensures Holds(more + chunks, u)
  {
    var c :| c in chunks && Part(v, c);
    PartTrans(u, v, c);
    assert c in more + chunks;
  }

  predicate Bounded(us: seq<string>, n: nat) {
    forall u :: u in us ==> |u| <= n
  }

  /** The state of the packing loop: stripped, and within the bound of a chunk. */
  predicate CurrentOk(current: string, target: nat, overlap: nat) {
    Trimmed(current) && |current| <= target + overlap + 2
  }

  lemma RestartOk(current: string, unit: string, target: nat, overlap: nat)
    requires Trimmed(unit) && |unit| <= target
    ensures CurrentOk(Restart(current, unit, overlap), target, overlap)
    ensures Part(unit, Restart(current, unit, overlap))
  {
    var prefix := if overlap > 0 then Strip(Suffix(current, overlap)) else "";
    var _, _ := StripSpan(Suffix(current, overlap));
    JoinedParts(prefix, unit);
  }

  /** Every chunk is non-empty, stripped and at most `target + overlap + 2` long. */
  lemma {:induction false} PackBounds(units: seq<string>, current: string, target: nat, overlap: nat)
    requires AllTrimmed(units) && Bounded(units, target) && CurrentOk(current, target, overlap)
    ensures forall c :: c in Pack(units, current, target, overlap) ==> c != "" && CurrentOk(c, target, overlap)
  {
    if units != [] {
      hide Joined, Restart;
      var candidate := Joined(current, units[0]);
      JoinedParts(current, units[0]);
      RestartOk(current, units[0], target, overlap);
      assert AllTrimmed(units[1..]) && Bounded(units[1..], target);
      var next := if |candidate| <= target then candidate else Restart(current, units[0], overlap);
      assert current == "" ==> |candidate| <= target;
      PackBounds(units[1..], next, target, overlap);
    }
  }

  /** One round of the packing loop: what it flushes, and what both hold afterwards. */
  lemma PackRound(units: seq<string>, current: string, target: nat, overlap: nat) returns (flushed: seq<string>, next: string)
    requires units != [] && Trimmed(units[0]) && |units[0]| <= target && CurrentOk(current, target, overlap)
    ensures Pack(units, current, target, overlap) == flushed + Pack(units[1..], next, target, overlap)
    ensures CurrentOk(next, target, overlap) && Part(units[0], next)
    ensures (flushed == [] && Part(current, next)) || flushed == [current]
  {
    hide Joined, Restart, Part, Trimmed;
    var candidate := Joined(current, units[0]);
    JoinedParts(current, units[0]);
    RestartOk(current, units[0], target, overlap);
    if |candidate| <= target {
      flushed, next := [], candidate;
    } else {
      flushed, next := [current], Restart(current, units[0], overlap);
    }
  }

  lemma HoldsMember(chunks: seq<string>, u: string)
    requires u in chunks
    ensures Holds(chunks, u)
  {
    PartRefl(u);
  }

  /** No text is lost: what is in `current`, and every unit, stays a contiguous part of some chunk. */
  lemma {:induction false} PackHolds(units: seq<string>, current: string, target: nat, overlap: nat)
    requires AllTrimmed(units) && Bounded(units, target) && CurrentOk(current, target, overlap)
    ensures current != "" ==> Holds(Pack(units, current, target, overlap), current)
    ensures forall u :: u in units && u != "" ==> Holds(Pack(units, current, target, overlap), u)
  {
    if units == [] {
      PartRefl(current);
    } else {
      hide Pack, Part, Holds, Trimmed, CurrentOk;
      var flushed, next := PackRound(units, current, target, overlap);
      assert AllTrimmed(units[1..]) && Bounded(units[1..], target);
      PackHolds(units[1..], next, target, overlap);
      var rest := Pack(units[1..], next, target, overlap);
      if current != "" {
        if flushed == [] {
          HoldsMore(rest, flushed, current, next);
        } else {
          HoldsMember(flushed + rest, current);
        }
      }
      forall u | u in units && u != ""
        ensures Holds(flushed + rest, u)
      {
        if u == units[0] {
          HoldsMore(rest, flushed, u, next);
        } else {
          assert u in units[1..];
          PartRefl(u);
          HoldsMore(rest, flushed, u, u);
        }
      }
    }
  }

  // ---------------------------------------------------------------------------------------------
  // Neighbouring chunks

  predicate StartsWith(s: string, t: string) {
    |t| <= |s| && s[..|t|] == t
  }

  /** The last `n` characters, or all of them. */
  predicate IsEnd(t: string, s: string, n: nat) {
    t == if |s| <= n then s else s[|s| - n..]
  }

  /** Joining keeps the beginning. */
  lemma JoinedStarts(a: string, b: string)
    requires Trimmed(a) && Trimmed(b)
    ensures StartsWith(Joined(a, b), a)
  {
    if a != "" {
      var t := a + "\n\n" + b;
      if b == "" {
        assert t == a + "\n\n";
        TrailingNewlines(a);
      } else {
        assert t[0] == a[0] && t[|t| - 1] == b[|b| - 1];
      }
    }
  }

  /** A chunk follows another: it starts with the end of it, and the unit that opened it did not fit any more. */
  ghost predicate FollowsChunk(c: string, d: string, units: seq<string>, target: nat, overlap: nat) {
    && (overlap > 0 ==> exists t :: IsEnd(t, c, overlap) && StartsWith(d, Strip(t)))
    && (exists u :: u in units && |c| + 2 + |u| > target && Part(u, d))
  }

  lemma StartsWithTrans(a: string, b: string, c: string)
    requires StartsWith(a, b) && StartsWith(b, c)
    ensures StartsWith(a, c)
  {
  }

  /** The loop's text begins with `start`, which the text of the next chunk will, too. */
  lemma {:induction false} FirstChunkStarts(units: seq<string>, current: string, start: string, target: nat, overlap: nat)
    requires AllTrimmed(units) && Bounded(units, target) && CurrentOk(current, target, overlap) && StartsWith(current, start)
    ensures var chunks := Pack(units, current, target, overlap);
            (current != "" ==> chunks != []) && (current != "" && chunks != [] ==> StartsWith(chunks[0], start) && Part(current, chunks[0]))
  {
    PartRefl(current);
    if units != [] && current != "" {
      hide Joined, Restart, Part, StartsWith;
      var candidate := Joined(current, units[0]);
      JoinedParts(current, units[0]);
      RestartOk(current, units[0], target, overlap);
      assert AllTrimmed(units[1..]) && Bounded(units[1..], target);
      if |candidate| <= target {
        JoinedStarts(current, units[0]);
        StartsWithTrans(candidate, current, start);
        FirstChunkStarts(units[1..], candidate, start, target, overlap);
        PartTrans(current, candidate, Pack(units[1..], candidate, target, overlap)[0]);
      }
    }
  }

  lemma RestartStarts(current: string, unit: string, overlap: nat) returns (t: string)
    requires Trimmed(unit) && overlap > 0
    ensures IsEnd(t, current, overlap) && StartsWith(Restart(current, unit, overlap), Strip(t))
  {
    t := Suffix(current, overlap);
    var _, _ := StripSpan(t);
    hide Strip, Joined;
    JoinedStarts(Strip(t), unit);
  }

  lemma FollowsMore(c: string, d: string, units: seq<string>, target: nat, overlap: nat)
    requires units != [] && FollowsChunk(c, d, units[1..], target, overlap)
    ensures FollowsChunk(c, d, units, target, overlap)
  {
    hide Strip, StartsWith, IsEnd, Part;
    var u :| u in units[1..] && |c| + 2 + |u| > target && Part(u, d);
    assert u in units;
  }

  /** The text that one round of the packing loop leaves. */
  lemma NextText(units: seq<string>, current: string, target: nat, overlap: nat) returns (next: string)
    requires units != [] && AllTrimmed(units) && Bounded(units, target) && CurrentOk(current, target, overlap)
    ensures AllTrimmed(units[1..]) && Bounded(units[1..], target) && CurrentOk(next, target, overlap)
    ensures var rest := Pack(units[1..], next, target, overlap);
            if |Joined(current, units[0])| <= target then Pack(units, current, target, overlap) == rest
            else current != "" && next == Restart(current, units[0], overlap) && Pack(units, current, target, overlap) == [current] + rest
  {
    hide Joined, Restart, Part;
    JoinedParts(current, units[0]);
    RestartOk(current, units[0], target, overlap);
    next := if |Joined(current, units[0])| <= target then Joined(current, units[0]) else Restart(current, units[0], overlap);
  }

  /** Every chunk but the first starts with the stripped end of the one before it, which was closed only because the next unit did not fit. */
  ghost predicate AllFollow(chunks: seq<string>, units: seq<string>, target: nat, overlap: nat) {
    forall i :: 0 <= i && i + 1 < |chunks| ==> FollowsChunk(chunks[i], chunks[i + 1], units, target, overlap)
  }

  lemma AllFollowMore(chunks: seq<string>, units: seq<string>, target: nat, overlap: nat)
    requires units != [] && AllFollow(chunks, units[1..], target, overlap)
    ensures AllFollow(chunks, units, target, overlap)
  {
    hide FollowsChunk;
    forall i | 0 <= i && i + 1 < |chunks|
      ensures FollowsChunk(chunks[i], chunks[i + 1], units, target, overlap)
    {
      FollowsMore(chunks[i], chunks[i + 1], units, target, overlap);
    }
  }

  lemma AllFollowCons(c: string, chunks: seq<string>, units: seq<string>, target: nat, overlap: nat)
    requires AllFollow(chunks, units, target, overlap)
    requires chunks != [] ==> FollowsChunk(c, chunks[0], units, target, overlap)
    ensures AllFollow([c] + chunks, units, target, overlap)
  {
    hide FollowsChunk;
  }

  lemma {:induction false} NeighboursFollow(units: seq<string>, current: string, target: nat, overlap: nat)
    requires AllTrimmed(units) && Bounded(units, target) && CurrentOk(current, target, overlap)
    ensures AllFollow(Pack(units, current, target, overlap), units, target, overlap)
  {
    hide FollowsChunk;
    if units != [] {
      hide Joined, Restart, Part, Pack, AllTrimmed, Bounded, CurrentOk, AllFollow;
      var next := NextText(units, current, target, overlap);
      var rest := Pack(units[1..], next, target, overlap);
      NeighboursFollow(units[1..], next, target, overlap);
      AllFollowMore(rest, units, target, overlap);
      if |Joined(current, units[0])| > target {
        if rest != [] {
          FirstFollows(units, current, target, overlap);
        }
        AllFollowCons(current, rest, units, target, overlap);
      }
    }
  }

  lemma FirstFollows(units: seq<string>, current: string, target: nat, overlap: nat)
    requires units != [] && AllTrimmed(units) && Bounded(units, target) && CurrentOk(current, target, overlap)
    requires current != "" && |Joined(current, units[0])| > target
    requires Pack(units[1..], Restart(current, units[0], overlap), target, overlap) != []
    ensures FollowsChunk(current, Pack(units[1..], Restart(current, units[0], overlap), target, overlap)[0], units, target, overlap)
  {
    hide Joined, Restart, Part, StartsWith, Strip, Pack;
    var next := Restart(current, units[0], overlap);
    var rest := Pack(units[1..], next, target, overlap);
    JoinedParts(current, units[0]);
    RestartOk(current, units[0], target, overlap);
    assert AllTrimmed(units[1..]) && Bounded(units[1..], target);
    var start := "";
    if overlap > 0 {
      var t := RestartStarts(current, units[0], overlap);
      start := Strip(t);
      NextChunkKeeps(units[1..], next, start, target, overlap);
      assert IsEnd(t, current, overlap) && StartsWith(rest[0], Strip(t));
    } else {
      NextChunkKeeps(units[1..], next, start, target, overlap);
    }
    PartTrans(units[0], next, rest[0]);
  }

  /** As `FirstChunkStarts`, also for a text that is still empty. */
  lemma {:induction false} NextChunkKeeps(units: seq<string>, current: string, start: string, target: nat, overlap: nat)
    requires AllTrimmed(units) && Bounded(units, target) && CurrentOk(current, target, overlap) && StartsWith(current, start)
    requires Pack(units, current, target, overlap) != []
    ensures var chunks := Pack(units, current, target, overlap); StartsWith(chunks[0], start) && Part(current, chunks[0])
  {
    if current != "" {
      FirstChunkStarts(units, current, start, target, overlap);
    } else {
      var chunks := Pack(units, current, target, overlap);
      assert chunks[0] == "" + "" + chunks[0];
      PartAt("", chunks[0], "", chunks[0]);
    }
  }

  // ---------------------------------------------------------------------------------------------
  // Units

  lemma UnitsOfOk(p: string, target: nat, overlap: nat)
    requires overlap < target && Trimmed(p)
    ensures AllTrimmed(UnitsOf(p, target, overlap)) && Bounded(UnitsOf(p, target, overlap), target)
  {
    hide WindowSpans, Strip;
    if |p| > target {
      var ws := WindowSpans(|p|, target, overlap, 0);
      WindowShape(|p|, target, overlap, 0);
      forall i | 0 <= i < |ws|
        ensures Trimmed(Slices(p, ws)[i]) && |Slices(p, ws)[i]| <= target
      {
        var _, _ := StripSpan(p[ws[i].lo..ws[i].hi]);
      }
    }
  }

  lemma {:induction false} UnitsOk(ps: seq<string>, target: nat, overlap: nat)
    requires overlap < target && AllTrimmed(ps)
    ensures AllTrimmed(Units(ps, target, overlap)) && Bounded(Units(ps, target, overlap), target)
  {
    if ps != [] {
      hide UnitsOf;
      UnitsOfOk(ps[0], target, overlap);
      UnitsOk(ps[1..], target, overlap);
    }
  }

  /** A character of a paragraph that is not white space lies in a unit, in place. */
  lemma UnitsOfCover(p: string, target: nat, overlap: nat, i: nat)
    requires overlap < target && i < |p| && !IsSpace(p[i])
    ensures exists lo: nat, hi: nat :: lo <= i < hi <= |p| && p[lo..hi] in UnitsOf(p, target, overlap)
  {
    hide Strip, IsSpace, WindowSpans;
    if |p| <= target {
      assert p[0..|p|] == p;
    } else {
      var ws := WindowSpans(|p|, target, overlap, 0);
      WindowsCover(|p|, target, overlap, 0, i);
      var w :| w in ws && w.lo <= i < w.hi <= |p|;
      var n :| 0 <= n < |ws| && ws[n] == w;
      var lo, hi := StripWithin(p, w.lo, w.hi, i);
      assert Slices(p, ws)[n] == p[lo..hi];
    }
  }

  lemma {:induction false} UnitsContain(ps: seq<string>, p: string, u: string, target: nat, overlap: nat)
    requires overlap < target && p in ps && u in UnitsOf(p, target, overlap)
    ensures u in Units(ps, target, overlap)
  {
    if ps[0] != p {
      UnitsContain(ps[1..], p, u, target, overlap);
    }
  }

  // ---------------------------------------------------------------------------------------------
  // The whole chunker

  function Chunks(content: string, target: nat, overlap: nat): seq<string>
    requires overlap < target
  {
    var packed := Pack(Units(Paragraphs(content), target, overlap), "", target, overlap);
    if packed == [] && Strip(content) != "" then [Strip(content)] else packed
  }

  lemma ParagraphUnitsOk(content: string, target: nat, overlap: nat)
    requires overlap < target
    ensures var us := Units(Paragraphs(content), target, overlap); AllTrimmed(us) && Bounded(us, target)
  {
    StrippedTrimmed(content, Pieces(content, 0));
    UnitsOk(Paragraphs(content), target, overlap);
  }

  lemma ParagraphsCover(content: string, i: nat) returns (lo: nat, hi: nat)
    requires i < |content| && !IsSpace(content[i])
    ensures lo <= i < hi <= |content| && content[lo..hi] in Paragraphs(content)
  {
    hide IsSpace, Strip, Stripped, Pieces;
    PiecesCover(content, 0, i);
    var piece :| piece in Pieces(content, 0) && piece.lo <= i < piece.hi;
    assert In(content, piece);
    StrippedCovers(content, Pieces(content, 0), piece, i);
    lo, hi :| lo <= i < hi <= |content| && content[lo..hi] in Stripped(content, Pieces(content, 0));
  }

  lemma UnitsCover(content: string, target: nat, overlap: nat, i: nat) returns (lo: nat, hi: nat)
    requires overlap < target && i < |content| && !IsSpace(content[i])
    ensures lo <= i < hi <= |content| && content[lo..hi] in Units(Paragraphs(content), target, overlap)
  {
    hide IsSpace, Paragraphs, Units, UnitsOf;
    var from, to := ParagraphsCover(content, i);
    var p := content[from..to];
    assert p[i - from] == content[i];
    UnitsOfCover(p, target, overlap, i - from);
    var a: nat, b: nat :| a <= i - from < b <= |p| && p[a..b] in UnitsOf(p, target, overlap);
    UnitsContain(Paragraphs(content), p, p[a..b], target, overlap);
    lo, hi := from + a, from + b;
    assert content[lo..hi] == p[a..b];
  }

  lemma PackedUnit(content: string, target: nat, overlap: nat, u: string)
    requires overlap < target && u in Units(Paragraphs(content), target, overlap) && u != ""
    ensures Holds(Pack(Units(Paragraphs(content), target, overlap), "", target, overlap), u)
  {
    hide Paragraphs, Units, Pack, Holds;
    ParagraphUnitsOk(content, target, overlap);
    PackHolds(Units(Paragraphs(content), target, overlap), "", target, overlap);
  }

  /** Every character that is not white space is in a stretch of the content that some chunk holds unbroken. */
  lemma NoTextLost(content: string, target: nat, overlap: nat, i: nat)
    requires overlap < target && i < |content| && !IsSpace(content[i])
    ensures exists lo: nat, hi: nat :: lo <= i < hi <= |content| && Holds(Chunks(content, target, overlap), content[lo..hi])
  {
    hide IsSpace, Paragraphs, Units, Pack, Part, Strip;
    var lo, hi := UnitsCover(content, target, overlap, i);
    PackedUnit(content, target, overlap, content[lo..hi]);
  }

  /** Every paragraph or stripped window is a contiguous part of some chunk. */
  lemma EveryUnitIsHeld(content: string, target: nat, overlap: nat, u: string)
    requires overlap < target && u in Units(Paragraphs(content), target, overlap) && u != ""
    ensures Holds(Chunks(content, target, overlap), u)
  {
    hide Paragraphs, Units, Pack, Part, Strip;
    PackedUnit(content, target, overlap, u);
  }

  /** For the chunks of a text: each starts with the stripped end of the one before, and none was closed early. */
  lemma ChunksFollow(content: string, target: nat, overlap: nat, i: nat)
    requires overlap < target && i + 1 < |Chunks(content, target, overlap)|
    ensures var chunks := Chunks(content, target, overlap);
            FollowsChunk(chunks[i], chunks[i + 1], Units(Paragraphs(content), target, overlap), target, overlap)
  {
    hide Paragraphs, Units, Pack, Strip, FollowsChunk;
    ParagraphUnitsOk(content, target, overlap);
    NeighboursFollow(Units(Paragraphs(content), target, overlap), "", target, overlap);
  }

  /** The bound on chunks; the fallback for an empty result is never needed. */
  lemma ChunkBounds(content: string, target: nat, overlap: nat)
    requires overlap < target
    ensures Chunks(content, target, overlap) == Pack(Units(Paragraphs(content), target, overlap), "", target, overlap)
    ensures forall c :: c in Chunks(content, target, overlap) ==> c != "" && |c| <= target + overlap + 2
  {
    hide Paragraphs, Units, Pack, Part, Strip, IsSpace;
    var us := Units(Paragraphs(content), target, overlap);
    ParagraphUnitsOk(content, target, overlap);
    PackBounds(us, "", target, overlap);
    var lo, hi := StripSpan(content);
    if lo < hi {
      assert Strip(content)[0] == content[lo];
      var a, b := UnitsCover(content, target, overlap, lo);
      PackedUnit(content, target, overlap, content[a..b]);
    }
  }

  /** The configuration `__init__` accepts. */
  predicate ConfigOk(target: nat, overlap: nat) {
    200 <= target <= MAX_CHUNK_CHARS && overlap < target
  }

  /** `split`, with its two loops. An error is the ValueError for an oversized chunk. */
  method Split(content: string, target: nat, overlap: nat) returns (out: Result<seq<string>, ()>)
    requires ConfigOk(target, overlap)
    ensures out.Ok? ==> out.value == Chunks(content, target, overlap)
    ensures out.Ok? <==> forall c :: c in Chunks(content, target, overlap) ==> |c| <= MAX_CHUNK_CHARS
    ensures target + overlap + 2 <= MAX_CHUNK_CHARS ==> out.Ok?
  {
    hide Paragraphs, Units, Pack, Strip;
    ChunkBounds(content, target, overlap);
    var units := SplitParagraphs(Paragraphs(content), target, overlap);
    var chunks := PackUnits(units, target, overlap);
    if chunks == [] && Strip(content) != "" {
      chunks := [Strip(content)];
    }
    if exists c :: c in chunks && (c == "" || |c| > MAX_CHUNK_CHARS) {
      return Err(());
    }
    return Ok(chunks);
  }

  /** The first loop of `split`. */
  method SplitParagraphs(paragraphs: seq<string>, target: nat, overlap: nat) returns (units: seq<string>)
    requires overlap < target
    ensures units == Units(paragraphs, target, overlap)
  {
    hide UnitsOf;
    units := [];
    for n := 0 to |paragraphs|
      invariant units + Units(paragraphs[n..], target, overlap) == Units(paragraphs, target, overlap)
    {
      var more := SplitParagraph(paragraphs[n], target, overlap);
      assert paragraphs[n..][1..] == paragraphs[n + 1..];
      units := units + more;
    }
  }

  /** The second loop of `split`. */
  method PackUnits(units: seq<string>, target: nat, overlap: nat) returns (chunks: seq<string>)
    ensures chunks == Pack(units, "", target, overlap)
  {
    hide Strip, Restart;
    chunks := [];
    var current := "";
    for n := 0 to |units|
      invariant chunks + Pack(units[n..], current, target, overlap) == Pack(units, "", target, overlap)
    {
      var unit := units[n];
      assert units[n..][1..] == units[n + 1..];
      var candidate := if current != "" then Strip(current + "\n\n" + unit) else unit;
      if |candidate| <= target {
        current := candidate;
      } else if current != "" {
        chunks := chunks + [current];
        current := Restart(current, unit, overlap);
      } else {
        current := unit;
      }
    }
    if current != "" {
      chunks := chunks + [current];
    }
  }

  /** The window loop over one paragraph. */
  method SplitParagraph(p: string, target: nat, overlap: nat) returns (units: seq<string>)
    requires overlap < target
    ensures units == UnitsOf(p, target, overlap)
  {
    if |p| <= target {
      return [p];
    }
    units := [];
    var start := 0;
    ghost var done: seq<Span> := [];
    ghost var all := WindowSpans(|p|, target, overlap, 0);
    while start < |p|
      invariant 0 <= start < |p|
      invariant done + WindowSpans(|p|, target, overlap, start) == all
      invariant units == Slices(p, done)
      decreases |p| - start
    {
      var end := Min(|p|, start + target);
      units := units + [Strip(p[start..end])];
      done := done + [Span(start, end)];
      if end >= |p| {
        assert done == all;
        break;
      }
      start := Max(start + 1, end - overlap);
    }
  }
}
