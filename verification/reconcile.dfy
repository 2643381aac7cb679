/** The committed-text reconciliation rule of the realtime transcriber: given
    the last committed text P (with the time it was committed) and a newly
    committed text, decide which part of it is new and what to remember next.
    This is the specification the transcriber's `DedupeCommittedText` method is proved
    against; the laws below are stated about it. */
module Reconciliation {
  import opened PyText

  /** Commits further apart than this (seconds) are unrelated utterances. */
  const GapSeconds: real := 8.0
  /** Overlaps shorter than this are ignored. */
  const MinOverlap: nat := 20
  /** The overlap search starts at most this far back. */
  const MaxOverlap: nat := 220

  /** The transcriber's `last_committed_text` and `last_committed_time`. */
  datatype CommitState = CommitState(lastText: string, lastTime: real)

  /** The state of a fresh transcriber. */
  const Initial: CommitState := CommitState("", 0.0)

  /** What one committed text produces: the text to emit (empty: nothing) and the next state. */
  datatype Reconciled = Reconciled(delta: string, next: CommitState)

  /** The last `k` characters of `p` are the first `k` characters of `c`. */
  predicate OverlapsAt(p: string, c: string, k: nat) {
    k <= |p| && k <= |c| && p[|p| - k..] == c[..k]
  }

  function Min(a: int, b: int): int {
    if a <= b then a else b
  }

  /** Where the overlap search starts: `min(len(previous), len(current), 220)`. */
  function OverlapCap(p: string, c: string): (n: nat)
    ensures n <= |p| && n <= |c| && n <= MaxOverlap
    ensures n == |p| || n == |c| || n == MaxOverlap
  {
    Min(Min(|p|, |c|), MaxOverlap)
  }

  /** The largest overlap of at least `MinOverlap` characters and at most
      `size`, or 0 when there is none. */
  function LongestOverlapUpTo(p: string, c: string, size: int): (k: nat)
    requires size <= |p| && size <= |c|
    ensures k == 0 || (MinOverlap <= k <= size && OverlapsAt(p, c, k))
    ensures forall j :: MinOverlap <= j <= size && k < j ==> !OverlapsAt(p, c, j)
    decreases size
  {
    if size < MinOverlap then 0
    else if p[|p| - size..] == c[..size] then size
    else LongestOverlapUpTo(p, c, size - 1)
  }

  /** One committed text, as `_dedupe_committed_text` treats it at time `now`. */
  function Reconcile(st: CommitState, text: string, now: real): (r: Reconciled)
    ensures r.next == st || r.next == CommitState(Strip(text), now)
    ensures r.delta != "" ==> r.next == CommitState(Strip(text), now)
    ensures |r.delta| <= |Strip(text)|
  {
    var current := Strip(text);
    var previous := st.lastText;
    if current == "" then Reconciled("", st)
    else if previous == "" then Reconciled(current, CommitState(current, now))
    else if now - st.lastTime > GapSeconds then Reconciled(current, CommitState(current, now))
    else if current == previous then Reconciled("", st)
    else if StartsWith(current, previous) then
      Reconciled(LStrip(current[|previous|..]), CommitState(current, now))
    else if StartsWith(previous, current) then Reconciled("", st)
    else Reconciled(AfterOverlap(previous, current), CommitState(current, now))
  }

  /** The last branch of `Reconcile`: `current` without the longest overlap
      with the end of `previous` (left-stripped), or all of `current` when
      there is no overlap in range. */
  function AfterOverlap(previous: string, current: string): (r: string)
    ensures |r| <= |current| && r == current[|current| - |r|..]
  {
    var overlap := LongestOverlapUpTo(previous, current, OverlapCap(previous, current));
    if overlap > 0 then
      var rest := current[overlap..];
      assert LStrip(rest) == current[|current| - |LStrip(rest)|..];
      LStrip(rest)
    else current
  }

  /** The state only ever holds stripped text. */
  ghost predicate ValidState(st: CommitState) {
    IsStripped(st.lastText)
  }

  // ---------------------------------------------------------------------
  // One law per branch
  // ---------------------------------------------------------------------

  /** Blank committed text emits nothing and leaves both fields alone. */
  lemma BlankIgnored(st: CommitState, text: string, now: real)
    requires Strip(text) == ""
    ensures Reconcile(st, text, now) == Reconciled("", st)
  {
  }

  /** The first commit, or one more than `GapSeconds` after the last, is
      emitted verbatim (stripped) whatever it overlaps, and is remembered with time `now`. */
  lemma FreshCommitVerbatim(st: CommitState, text: string, now: real)
    requires Strip(text) != ""
    requires st.lastText == "" || now - st.lastTime > GapSeconds
    ensures Reconcile(st, text, now) == Reconciled(Strip(text), CommitState(Strip(text), now))
  {
  }

  /** Within the window an exact repeat emits nothing and does not refresh the time. */
  lemma DuplicateIgnored(st: CommitState, text: string, now: real)
    requires st.lastText != "" && now - st.lastTime <= GapSeconds
    requires Strip(text) == st.lastText
    ensures Reconcile(st, text, now) == Reconciled("", st)
  {
  }

  /** Within the window, text extending the last commit emits only the
      extension (left-stripped) and becomes the new state. */
  lemma ExtensionEmitsSuffix(st: CommitState, text: string, now: real, s: string)
    requires st.lastText != "" && now - st.lastTime <= GapSeconds
    requires s != "" && Strip(text) == st.lastText + s
    ensures Reconcile(st, text, now) == Reconciled(LStrip(s), CommitState(st.lastText + s, now))
  {
    var c := st.lastText + s;
    assert c[..|st.lastText|] == st.lastText;
    assert c[|st.lastText|..] == s;
  }

  /** The idempotent-extension law: a stripped continuation, with no space
      of its own in front, is emitted exactly. */
  lemma ExtensionExact(st: CommitState, now: real, s: string)
    requires ValidState(st) && st.lastText != "" && now - st.lastTime <= GapSeconds
    requires s != "" && !IsSpace(s[0]) && !IsSpace(s[|s| - 1])
    ensures Reconcile(st, st.lastText + s, now).delta == s
    ensures Reconcile(st, st.lastText + s, now).next == CommitState(st.lastText + s, now)
  {
    var c := st.lastText + s;
    assert IsStripped(c);
    StripStripped(c);
    StripStripped(s);
    ExtensionEmitsSuffix(st, c, now, s);
  }

  /** Within the window, a shorter text that the last commit starts with emits
      nothing and leaves the state alone. */
  lemma ShrinkIgnored(st: CommitState, text: string, now: real)
    requires st.lastText != "" && now - st.lastTime <= GapSeconds
    requires Strip(text) != "" && StartsWith(st.lastText, Strip(text))
    ensures Reconcile(st, text, now) == Reconciled("", st)
  {
  }

  /** `m` is the overlap the search picks: the largest one in
      `MinOverlap .. OverlapCap(p, c)`. */
  ghost predicate IsLongestOverlap(p: string, c: string, m: nat) {
    && MinOverlap <= m <= OverlapCap(p, c) && OverlapsAt(p, c, m)
    && forall j :: m < j <= OverlapCap(p, c) ==> !OverlapsAt(p, c, j)
  }

  ghost predicate HasOverlap(p: string, c: string) {
    exists k :: MinOverlap <= k <= OverlapCap(p, c) && OverlapsAt(p, c, k)
  }

  /** Otherwise, within the window, the longest overlap between the end of the
      last commit and the start of this one is cut off the front (then
      left-stripped); with no overlap in range the text is emitted verbatim.
      Either way the text becomes the new state. */
  lemma OverlapTrimmed(st: CommitState, text: string, now: real)
    requires st.lastText != "" && now - st.lastTime <= GapSeconds
    requires Strip(text) != ""
    requires !StartsWith(Strip(text), st.lastText) && !StartsWith(st.lastText, Strip(text))
    ensures Reconcile(st, text, now).next == CommitState(Strip(text), now)
    ensures !HasOverlap(st.lastText, Strip(text)) ==> Reconcile(st, text, now).delta == Strip(text)
    ensures HasOverlap(st.lastText, Strip(text)) ==>
              exists m: nat :: IsLongestOverlap(st.lastText, Strip(text), m)
                          && Reconcile(st, text, now).delta == LStrip(Strip(text)[m..])
  {
    var c := Strip(text);
    var p := st.lastText;
    var m := LongestOverlapUpTo(p, c, OverlapCap(p, c));
    OverlapBranch(st, text, now);
    if m > 0 {
      assert IsLongestOverlap(p, c, m) && AfterOverlap(p, c) == LStrip(c[m..]);
    } else {
      assert !HasOverlap(p, c);
    }
  }

  /** The commits that reach the overlap search. */
  lemma OverlapBranch(st: CommitState, text: string, now: real)
    requires st.lastText != "" && now - st.lastTime <= GapSeconds
    requires Strip(text) != ""
    requires !StartsWith(Strip(text), st.lastText) && !StartsWith(st.lastText, Strip(text))
    ensures Reconcile(st, text, now) == Reconciled(AfterOverlap(st.lastText, Strip(text)), CommitState(Strip(text), now))
  {
  }

  /** An overlap shorter than `MinOverlap` never counts: if either text is
      shorter than that, a non-prefix commit within the window is emitted verbatim. */
  lemma ShortOverlapIgnored(st: CommitState, text: string, now: real)
    requires st.lastText != "" && now - st.lastTime <= GapSeconds
    requires Strip(text) != ""
    requires !StartsWith(Strip(text), st.lastText) && !StartsWith(st.lastText, Strip(text))
    requires |Strip(text)| < MinOverlap || |st.lastText| < MinOverlap
    ensures Reconcile(st, text, now) == Reconciled(Strip(text), CommitState(Strip(text), now))
  {
  }

  // ---------------------------------------------------------------------
  // Laws over all branches
  // ---------------------------------------------------------------------

  /** `delta` is what is left of `c` once a stretch that ends `p` (possibly
      empty) is cut off its front and the whitespace after it is dropped. */
  ghost predicate RestAfterSeen(p: string, c: string, delta: string) {
    exists i: nat :: i <= |c| && i <= |p| && c[..i] == p[|p| - i..] && delta == LStrip(c[i..])
  }

  /** `d` is stripped and is a tail of `c`. */
  predicate StrippedTail(c: string, d: string) {
    IsStripped(d) && |d| <= |c| && d == c[|c| - |d|..]
  }

  /** Every delta is a stripped tail of the committed text. */
  lemma {:induction false} DeltaIsStrippedTail(st: CommitState, text: string, now: real)
    ensures StrippedTail(Strip(text), Reconcile(st, text, now).delta)
  {
    var c := Strip(text);
    var p := st.lastText;
    if c == "" {
      BlankIgnored(st, text, now);
    } else if p == "" || now - st.lastTime > GapSeconds {
      FreshCommitVerbatim(st, text, now);
      assert c == c[|c| - |c|..];
    } else if c == p {
      DuplicateIgnored(st, text, now);
    } else if StartsWith(c, p) {
      ExtensionDeltaTail(st, text, now);
    } else if StartsWith(p, c) {
      ShrinkIgnored(st, text, now);
    } else {
      OverlapBranch(st, text, now);
      AfterOverlapIsTail(p, c);
    }
  }

  /** An extension within the window emits a stripped tail of the commit. */
  lemma ExtensionDeltaTail(st: CommitState, text: string, now: real)
    requires st.lastText != "" && now - st.lastTime <= GapSeconds
    requires Strip(text) != st.lastText && StartsWith(Strip(text), st.lastText)
    ensures StrippedTail(Strip(text), Reconcile(st, text, now).delta)
  {
    var c, p := Strip(text), st.lastText;
    assert c == p + c[|p|..];
    ExtensionEmitsSuffix(st, text, now, c[|p|..]);
    LStripTailStripped(c, |p|);
  }

  lemma AfterOverlapIsTail(p: string, c: string)
    requires IsStripped(c)
    ensures StrippedTail(c, AfterOverlap(p, c))
  {
    var k := LongestOverlapUpTo(p, c, OverlapCap(p, c));
    if k > 0 {
      LStripTailStripped(c, k);
    } else {
      assert c == c[|c| - |c|..];
    }
  }

  /** Nothing new is lost: either the commit is dropped, in which case it is
      blank or a prefix of the last commit and the state is kept; or it becomes
      the state and what is emitted is its rest after some stretch (possibly
      empty) that ends the last commit. Text already emitted can be emitted
      again: an overlap shorter than `MinOverlap` is not cut off, and after
      the gap the whole commit is emitted. */
  lemma {:induction false} DroppedOrAdvanced(st: CommitState, text: string, now: real)
    ensures var c := Strip(text);
            var r := Reconcile(st, text, now);
            || (r == Reconciled("", st) && StartsWith(st.lastText, c))
            || (r.next == CommitState(c, now) && RestAfterSeen(st.lastText, c, r.delta))
  {
    var c := Strip(text);
    var p := st.lastText;
    if c == "" {
      BlankIgnored(st, text, now);
    } else if p == "" || now - st.lastTime > GapSeconds {
      FreshCommitVerbatim(st, text, now);
      StripStripped(c);
      SeenNothing(p, c);
    } else if c == p {
      DuplicateIgnored(st, text, now);
    } else if StartsWith(c, p) {
      assert c == p + c[|p|..];
      ExtensionEmitsSuffix(st, text, now, c[|p|..]);
      SeenStretch(p, c, |p|);
    } else if StartsWith(p, c) {
      ShrinkIgnored(st, text, now);
    } else {
      OverlapAdvances(st, text, now);
    }
  }

  /** The overlap branch of `DroppedOrAdvanced`. */
  lemma OverlapAdvances(st: CommitState, text: string, now: real)
    requires st.lastText != "" && now - st.lastTime <= GapSeconds
    requires Strip(text) != ""
    requires !StartsWith(Strip(text), st.lastText) && !StartsWith(st.lastText, Strip(text))
    ensures Reconcile(st, text, now).next == CommitState(Strip(text), now)
    ensures RestAfterSeen(st.lastText, Strip(text), Reconcile(st, text, now).delta)
  {
    var c := Strip(text);
    var p := st.lastText;
    OverlapBranch(st, text, now);
    AfterOverlapIsRest(p, c);
  }

  lemma AfterOverlapIsRest(p: string, c: string)
    requires IsStripped(c)
    ensures RestAfterSeen(p, c, AfterOverlap(p, c))
  {
    var k := LongestOverlapUpTo(p, c, OverlapCap(p, c));
    if k > 0 {
      SeenStretch(p, c, k);
    } else {
      StripStripped(c);
      SeenNothing(p, c);
    }
  }

  lemma SeenNothing(p: string, c: string)
    ensures RestAfterSeen(p, c, LStrip(c))
  {
    assert c[..0] == [] == p[|p|..];
    assert c[0..] == c;
    SeenStretch(p, c, 0);
  }

  lemma SeenStretch(p: string, c: string, i: nat)
    requires i <= |c| && i <= |p| && c[..i] == p[|p| - i..]
    ensures RestAfterSeen(p, c, LStrip(c[i..]))
  {
  }

  /** Reconciliation keeps the state stripped. */
  lemma ReconcileKeepsStateStripped(st: CommitState, text: string, now: real)
    requires ValidState(st)
    ensures ValidState(Reconcile(st, text, now).next)
  {
  }

  // ---------------------------------------------------------------------
  // Worked examples
  // ---------------------------------------------------------------------

  /** "brown" is an overlap of 5 characters, under the floor: the new text is emitted whole. */
  lemma ShortOverlapExample()
    ensures Reconcile(CommitState("the quick brown", 10.0), "brown fox jumps", 12.0).delta == "brown fox jumps"
  {
    var st := CommitState("the quick brown", 10.0);
    StripStripped("brown fox jumps");
    ShortOverlapIgnored(st, "brown fox jumps", 12.0);
  }
}
