/** `ElevenLabsRealtimeTranscriber` with the audio device, the SDK
    connection, the clock and the terminal replaced by method parameters:
    the committed-text reconciliation, the segment counter, the rolling
    partial line, the audio callback and the sender loop's drain. */
module Realtime {
  import opened PyText
  import opened Reconciliation
  import opened Capture

  /** The longest partial line the terminal shows: one less than the width, never under 20. */
  function MaxPartialLen(width: int): (n: nat)
    ensures n >= 20 && n >= width - 1
    ensures n == 20 || n == width - 1
  {
    if width - 1 > 20 then width - 1 else 20
  }

  /** `_fit_partial_for_terminal` for a terminal `width` columns wide: text
      that fits is shown whole, longer text as "..." and its newest tail,
      filling the line exactly. */
  function FitPartial(text: string, width: int): (r: string)
    ensures |r| <= MaxPartialLen(width) && |r| <= |text|
    ensures |text| <= MaxPartialLen(width) ==> r == text
    ensures |text| > MaxPartialLen(width) ==>
              && |r| == MaxPartialLen(width)
              && r[..3] == "..."
              && r[3..] == text[|text| - (|r| - 3)..]
  {
    var maxLen := MaxPartialLen(width);
    if |text| <= maxLen then text
    else "..." + text[|text| - (maxLen - 3)..]
  }

  /** What is shown is what gets shown again: a fitted line fits. */
  lemma FitPartialIdempotent(text: string, width: int)
    ensures FitPartial(FitPartial(text, width), width) == FitPartial(text, width)
  {
  }

  /** The overlap search of `_dedupe_committed_text`: sizes from
      `min(len(previous), len(current), 220)` down to 20, stopping at the
      first whose end of `previous` is the start of `current`; 0 if none. */
  method SearchOverlap(previous: string, current: string) returns (overlap: nat)
    ensures overlap == LongestOverlapUpTo(previous, current, OverlapCap(previous, current))
    ensures overlap == 0 <==> !HasOverlap(previous, current)
    ensures overlap != 0 ==> IsLongestOverlap(previous, current, overlap)
  {
    var maxOverlap := Min(Min(|previous|, |current|), MaxOverlap);
    overlap := 0;
    var size := maxOverlap;
    while size >= MinOverlap
      invariant size <= maxOverlap
      invariant LongestOverlapUpTo(previous, current, size) == LongestOverlapUpTo(previous, current, maxOverlap)
      decreases size
    {
      if previous[|previous| - size..] == current[..size] {
        overlap := size;
        break;
      }
      size := size - 1;
    }
    if overlap != 0 {
      assert OverlapsAt(previous, current, overlap);
    }
  }

  class Transcriber {
    const chunkSamples: nat
    const showPartial: bool
    const includeTimestamps: bool
    const audioQueue: ChunkQueue

    /** `stop_event`. */
    var stopped: bool
    /** Chunks written to `stream.wav`, in order. */
    var recorded: seq<Chunk>
    /** Chunks handed to `connection.send`, in order. */
    var sent: seq<Chunk>
    var segmentIndex: nat
    /** The text of `segments/seg_00001.txt`, `seg_00002.txt`, ... in order;
        the same texts are appended to both transcript files. */
    var segments: seq<string>
    var lastPartialText: string
    var partialLineActive: bool
    var partialRenderLen: nat
    var lastCommittedText: string
    var lastCommittedTime: real

    /** The reconciliation state held in the two `last_committed_*` fields. */
    function Commit(): CommitState
      reads this
    {
      CommitState(lastCommittedText, lastCommittedTime)
    }

    ghost predicate Valid()
      reads this, audioQueue
    {
      && audioQueue.Valid()
      && segmentIndex == |segments|
      && (forall i :: 0 <= i < |segments| ==> segments[i] != "" && IsStripped(segments[i]))
      && ValidState(Commit())
      && (partialLineActive ==> showPartial && lastPartialText != "" && partialRenderLen <= |lastPartialText|)
      && (!partialLineActive ==> lastPartialText == "" && partialRenderLen == 0)
    }

    constructor (chunkSamples: nat, showPartial: bool, includeTimestamps: bool, maxAudioQueueChunks: int)
      ensures Valid()
      ensures this.chunkSamples == chunkSamples && this.showPartial == showPartial
      ensures this.includeTimestamps == includeTimestamps
      ensures fresh(audioQueue) && audioQueue.maxsize == maxAudioQueueChunks && audioQueue.items == []
      ensures !stopped && recorded == [] && sent == [] && segments == []
      ensures !partialLineActive && Commit() == Initial
    {
      this.chunkSamples := chunkSamples;
      this.showPartial := showPartial;
      this.includeTimestamps := includeTimestamps;
      audioQueue := new ChunkQueue(maxAudioQueueChunks);
      stopped := false;
      recorded := [];
      sent := [];
      segmentIndex := 0;
      segments := [];
      lastPartialText := "";
      partialLineActive := false;
      partialRenderLen := 0;
      lastCommittedText := "";
      lastCommittedTime := 0.0;
    }

    /** `_dedupe_committed_text` at clock reading `now`: returns exactly the
        delta the reconciliation function gives and moves to its next state. */
    method DedupeCommittedText(text: Option<string>, now: real) returns (delta: string)
      modifies this`lastCommittedText, this`lastCommittedTime
      ensures delta == Reconcile(old(Commit()), OrEmpty(text), now).delta
      ensures Commit() == Reconcile(old(Commit()), OrEmpty(text), now).next
    {
      ghost var st := Commit();
      var current := Strip(OrEmpty(text));
      if current == "" {
        BlankIgnored(st, OrEmpty(text), now);
        return "";
      }
      var previous := lastCommittedText;
      if previous == "" || now - lastCommittedTime > GapSeconds {
        FreshCommitVerbatim(st, OrEmpty(text), now);
        lastCommittedText, lastCommittedTime := current, now;
        return current;
      }
      if current == previous {
        DuplicateIgnored(st, OrEmpty(text), now);
        return "";
      }
      if StartsWith(current, previous) {
        assert current == previous + current[|previous|..];
        ExtensionEmitsSuffix(st, OrEmpty(text), now, current[|previous|..]);
        delta := LStrip(current[|previous|..]);
        lastCommittedText, lastCommittedTime := current, now;
        return delta;
      }
      if StartsWith(previous, current) {
        ShrinkIgnored(st, OrEmpty(text), now);
        return "";
      }
      OverlapBranch(st, OrEmpty(text), now);
      var overlap := SearchOverlap(previous, current);
      lastCommittedText, lastCommittedTime := current, now;
      if overlap > 0 {
        delta := LStrip(current[overlap..]);
      } else {
        delta := current;
      }
    }

    /** `_print_committed_line`'s reset, and the same block in `_on_error`
        and `_on_close`: a rolling partial line on screen is cleared and forgotten. */
    method EndPartialLine()
      requires Valid()
      modifies this`partialLineActive, this`partialRenderLen, this`lastPartialText
      ensures Valid()
      ensures !partialLineActive && partialRenderLen == 0 && lastPartialText == ""
    {
      if showPartial && partialLineActive {
        partialLineActive := false;
        partialRenderLen := 0;
        lastPartialText := "";
      }
    }

    /** `_handle_committed_text`: a non-empty delta becomes the next numbered
        segment and ends the rolling partial line; an empty one changes
        nothing but the reconciliation state. */
    method HandleCommittedText(text: Option<string>, now: real) returns (delta: string)
      requires Valid()
      modifies this`lastCommittedText, this`lastCommittedTime, this`segmentIndex, this`segments
      modifies this`partialLineActive, this`partialRenderLen, this`lastPartialText
      ensures Valid()
      ensures delta == Reconcile(old(Commit()), OrEmpty(text), now).delta
      ensures Commit() == Reconcile(old(Commit()), OrEmpty(text), now).next
      ensures segments == old(segments) + if delta == "" then [] else [delta]
      ensures delta != "" ==> !partialLineActive
      ensures delta == "" ==>
                && partialLineActive == old(partialLineActive)
                && lastPartialText == old(lastPartialText)
                && partialRenderLen == old(partialRenderLen)
    {
      delta := DedupeCommittedText(text, now);
      assert IsStripped(delta) && ValidState(Commit()) by {
        ReconcileKeepsStateStripped(old(Commit()), OrEmpty(text), now);
        DeltaIsStrippedTail(old(Commit()), OrEmpty(text), now);
      }
      if delta != "" {
        AppendSegment(delta);
      }
    }

    /** The rest of `_handle_committed_text` once there is something to
        record: the segment counter advances with the list of segments, and
        the committed line replaces any rolling partial line. */
    method AppendSegment(delta: string)
      requires Valid() && delta != "" && IsStripped(delta)
      modifies this`segmentIndex, this`segments
      modifies this`partialLineActive, this`partialRenderLen, this`lastPartialText
      ensures Valid()
      ensures segments == old(segments) + [delta] && segmentIndex == old(segmentIndex) + 1
      ensures !partialLineActive
    {
      segmentIndex := segmentIndex + 1;
      segments := segments + [delta];
      EndPartialLine();
    }

    /** `_on_committed_transcript`: consumed only when timestamps were not requested. */
    method OnCommittedTranscript(text: Option<string>, now: real) returns (delta: string)
      requires Valid()
      modifies this`lastCommittedText, this`lastCommittedTime, this`segmentIndex, this`segments
      modifies this`partialLineActive, this`partialRenderLen, this`lastPartialText
      ensures Valid()
      ensures includeTimestamps ==>
                && delta == "" && segments == old(segments) && Commit() == old(Commit())
                && partialLineActive == old(partialLineActive)
                && lastPartialText == old(lastPartialText)
                && partialRenderLen == old(partialRenderLen)
      ensures !includeTimestamps ==>
                && delta == Reconcile(old(Commit()), OrEmpty(text), now).delta
                && Commit() == Reconcile(old(Commit()), OrEmpty(text), now).next
                && segments == old(segments) + (if delta == "" then [] else [delta])
                && (delta != "" ==> !partialLineActive)
                && (delta == "" ==>
                      && partialLineActive == old(partialLineActive)
                      && lastPartialText == old(lastPartialText)
                      && partialRenderLen == old(partialRenderLen))
    {
      if includeTimestamps {
        return "";
      }
      delta := HandleCommittedText(text, now);
    }

    /** `_on_committed_with_timestamps`: consumed only when timestamps were
        requested, so of the two committed events the API may send for one
        utterance exactly one is used. */
    method OnCommittedWithTimestamps(text: Option<string>, now: real) returns (delta: string)
      requires Valid()
      modifies this`lastCommittedText, this`lastCommittedTime, this`segmentIndex, this`segments
      modifies this`partialLineActive, this`partialRenderLen, this`lastPartialText
      ensures Valid()
      ensures !includeTimestamps ==>
                && delta == "" && segments == old(segments) && Commit() == old(Commit())
                && partialLineActive == old(partialLineActive)
                && lastPartialText == old(lastPartialText)
                && partialRenderLen == old(partialRenderLen)
      ensures includeTimestamps ==>
                && delta == Reconcile(old(Commit()), OrEmpty(text), now).delta
                && Commit() == Reconcile(old(Commit()), OrEmpty(text), now).next
                && segments == old(segments) + (if delta == "" then [] else [delta])
                && (delta != "" ==> !partialLineActive)
                && (delta == "" ==>
                      && partialLineActive == old(partialLineActive)
                      && lastPartialText == old(lastPartialText)
                      && partialRenderLen == old(partialRenderLen))
    {
      if !includeTimestamps {
        return "";
      }
      delta := HandleCommittedText(text, now);
    }

    /** `_on_partial_transcript` on a terminal `width` columns wide: returns
        the line it renders, if any. Blank text and a repeat of the text on
        screen render nothing and change nothing. */
    method OnPartialTranscript(text: Option<string>, width: int) returns (shown: Option<string>)
      requires Valid()
      modifies this`partialLineActive, this`partialRenderLen, this`lastPartialText
      ensures Valid()
      ensures var t := Strip(OrEmpty(text));
              shown.Some? <==> showPartial && t != "" && t != old(lastPartialText)
      ensures shown.Some? ==>
                && shown.value == FitPartial(Strip(OrEmpty(text)), width)
                && lastPartialText == Strip(OrEmpty(text))
                && partialLineActive && partialRenderLen == |shown.value|
      ensures shown.None? ==>
                && partialLineActive == old(partialLineActive)
                && lastPartialText == old(lastPartialText)
                && partialRenderLen == old(partialRenderLen)
    {
      if !showPartial {
        return None;
      }
      var t := Strip(OrEmpty(text));
      if t == "" || t == lastPartialText {
        return None;
      }
      var rendered := RenderPartialLine(t, width);
      lastPartialText := t;
      shown := Some(rendered);
    }

    /** `_render_partial_line`: the fitted text replaces the rolling line. */
    method RenderPartialLine(text: string, width: int) returns (rendered: string)
      modifies this`partialLineActive, this`partialRenderLen
      ensures rendered == FitPartial(text, width)
      ensures partialLineActive && partialRenderLen == |rendered|
    {
      rendered := FitPartial(text, width);
      partialLineActive := true;
      partialRenderLen := |rendered|;
    }

    /** `_on_error` and `_on_close`: the rolling partial line is cleared. */
    method OnErrorOrClose()
      requires Valid()
      modifies this`partialLineActive, this`partialRenderLen, this`lastPartialText
      ensures Valid()
      ensures !partialLineActive && lastPartialText == ""
    {
      EndPartialLine();
    }

    /** `_audio_callback` for a device frame of `frames` samples: the chunk
        is written to the recording and enqueued for the sender, dropping the
        oldest queued chunk when the queue is full. */
    method AudioCallback(frame: seq<Sample>, frames: nat) returns (chunk: Chunk)
      requires Valid() && |frame| == frames
      modifies this`recorded, audioQueue
      ensures Valid()
      ensures |chunk| == chunkSamples
      ensures forall i :: 0 <= i < chunkSamples && i < |frame| ==> chunk[i] == frame[i]
      ensures forall i :: |frame| <= i < chunkSamples ==> chunk[i] == 0
      ensures recorded == old(recorded) + [chunk]
      ensures audioQueue.items == DropOldestPut(old(audioQueue.items), audioQueue.maxsize, chunk)
    {
      chunk := PadFrame(frame, frames, chunkSamples);
      recorded := recorded + [chunk];
      var full := audioQueue.PutNowait(chunk);
      if full {
        var _ := audioQueue.GetNowait();
        full := audioQueue.PutNowait(chunk);
      }
    }

    /** One turn of `_sender_loop` while recording: the oldest queued chunk,
        if any, is sent. */
    method SenderPoll()
      requires Valid()
      modifies this`sent, audioQueue
      ensures Valid()
      ensures old(audioQueue.items) == [] ==> sent == old(sent) && audioQueue.items == []
      ensures old(audioQueue.items) != [] ==>
                && sent == old(sent) + [old(audioQueue.items)[0]]
                && audioQueue.items == old(audioQueue.items)[1..]
    {
      var next := audioQueue.GetNowait();
      if next.Some? {
        sent := sent + [next.value];
      }
    }

    /** `_sender_loop` once the stop event is set: it keeps going until the
        queue is empty, so every chunk still queued is sent, in order. */
    method SenderDrain()
      requires Valid() && stopped
      modifies this`sent, audioQueue
      ensures Valid()
      ensures sent == old(sent) + old(audioQueue.items)
      ensures audioQueue.items == []
    {
      var empty := audioQueue.IsEmpty();
      while !stopped || !empty
        invariant Valid() && stopped
        invariant sent + audioQueue.items == old(sent) + old(audioQueue.items)
        invariant empty <==> audioQueue.items == []
        decreases |audioQueue.items|
      {
        var before := audioQueue.items;
        var next := audioQueue.GetNowait();
        if next.Some? {
          assert before == [next.value] + audioQueue.items;
          sent := sent + [next.value];
        }
        empty := audioQueue.IsEmpty();
      }
    }

    /** The `finally` block of `run` up to the final commit: the stop event is
        set and the sender is awaited, so nothing queued is lost. */
    method Stop()
      requires Valid()
      modifies this`stopped, this`sent, audioQueue
      ensures Valid() && stopped
      ensures sent == old(sent) + old(audioQueue.items)
      ensures audioQueue.items == []
    {
      stopped := true;
      SenderDrain();
    }
  }
}
