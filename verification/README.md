# Meeting transcribers: a verified model of the realtime core

This project models the two parts of the meeting transcribers that do real work:

- **The command-line transcriber** (`ElevenLabsRealtimeTranscriber`, `elevenlabs_realtime.py`):
  - the reconciliation of overlapping committed transcripts into new text;
  - the segment counter;
  - the rolling partial line;
  - the framing of audio into fixed-size chunks;
  - the drop-oldest audio queue and the sender loop's drain.
- **The web bridge** (`ws_transcribe` in `app.py`):
  - the first control message;
  - the browser loop that relays audio upstream;
  - the relay that forwards upstream transcript events and collects committed segments;
  - the final commit and drain;
  - the `finally` block that always completes the meeting's metadata and transcript.

The network, the audio device, the ElevenLabs SDK, the clock and the terminal are not modelled. Their effects enter as parameters instead:

- the clock reading `now` of a commit;
- the terminal width;
- whether a send succeeds;
- a segment's timestamp string;
- the seconds elapsed at the end.

The two event loops of the web bridge are modelled as one interleaving chosen by the caller. It is a schedule of steps, each one of:

- a browser frame;
- an SDK callback delivering an event;
- a relay turn.

There are five modules:

- `PyText` (`text.dfy`): Python's `x or ""`, and `str.strip()` / `str.lstrip()` over the characters for which `str.isspace()` holds.
- `Reconciliation` (`reconcile.dfy`): `Reconcile`, a pure definition of `_dedupe_committed_text` over the state `(last_committed_text, last_committed_time)`. It comes with one law per branch and with laws over all branches.
- `Capture` (`capture.dfy`):
  - the frame padding, as a loop over a zeroed array;
  - the drop-oldest enqueue, as a function with its laws;
  - `queue.Queue` as a class.
- `Realtime` (`transcriber.dfy`): the transcriber as a class. Its `DedupeCommittedText` method runs the downward overlap search loop and is proved to compute exactly `Reconcile`.
- `Bridge` (`bridge.dfy`): `ws_transcribe` as a `Session` class. Each method is one step of the handler, and a driver runs a schedule.
  - The central invariant says the collected segments are the stripped, non-empty committed texts of the events the relay has handled, in order.
  - A second invariant says the browser has received `session_started` and then the reply to each handled event, in order; only the failed send that ended the relay delivered nothing.
  - On every schedule the meeting ends `completed`, with a transcript collected from a prefix of the delivered events.
  - How the relay ended (idle exit, upstream close, failed send, or cancellation) fixes how long that prefix is. For example, a relay that sees no close and no failed send, with enough drain turns, handles every event delivered before its idle exit.
  - The audio relayed upstream is that of the audio frames the browser loop read before it ended. The final commit is issued unless the upstream closed during the live schedule.

Two behaviours of `app.py` are worth stating plainly:

- The `finally` block that completes a meeting covers only the code after the upstream connect. A failed connect (`app.py:180-185`) returns before it is reached. So does a failed `session_started` send (`app.py:165`), which raises out of the handler. In both cases `metadata.json` stays at status `recording` and no transcript is written. `Bridge.WsTranscribe` states both outcomes.
- The web bridge keeps every non-empty stripped committed text (`app.py:249-253`) as a segment. It does not reconcile overlapping commits the way the command-line transcriber does.

## Model

| member | source | states |
|---|---|---|
| PyText.OrEmpty | elevenlabs_realtime.py:121 | `text or ""` is the text itself when there is one and "" otherwise, so it is empty exactly when the text is absent or empty |
| PyText.IsSpace | elevenlabs_realtime.py:121 | space, tab, newline and carriage return are whitespace; digits, ASCII letters and the zero-width space are not |
| PyText.Strip | elevenlabs_realtime.py:121 | the result of `strip()` has no whitespace at either end and is no longer than its input |
| PyText.StripRemovesOnlySpace | elevenlabs_realtime.py:121 | `strip()` keeps one contiguous stretch of its input and drops only whitespace before and after it |
| PyText.LStrip | elevenlabs_realtime.py:143 | `lstrip()` returns a suffix of its input, drops only whitespace, and starts with a non-whitespace character (or is empty) |
| PyText.SkipSpaces | elevenlabs_realtime.py:143 | the index of the first non-whitespace character at or after `i`, with only whitespace skipped |
| PyText.StripStripped | elevenlabs_realtime.py:121-131 | stripping text that is already stripped leaves it unchanged, so the verbatim branches emit the text exactly |
| PyText.LStripTailStripped | elevenlabs_realtime.py:143-146 | the left-stripped tail of stripped text is stripped and is itself a tail of that text |
| PyText.StartsWith | elevenlabs_realtime.py:142-148 | `b.startswith(a)` holds for the empty prefix and for `b` itself, and when it holds `b` is `a` followed by the rest of `b` |
| Reconciliation.LongestOverlapUpTo | elevenlabs_realtime.py:151-156 | the result is 0 or an overlap between `MinOverlap` and `size`, and no longer overlap up to `size` exists |
| Reconciliation.OverlapCap | elevenlabs_realtime.py:151 | the search bound `min(len(previous), len(current), 220)` is at most each of the three and equal to one of them |
| Reconciliation.Reconcile | elevenlabs_realtime.py:120-162 | a commit either leaves the state alone or replaces it with the stripped commit at `now`; anything emitted comes with that replacement, and it is never longer than the stripped commit |
| Reconciliation.AfterOverlap | elevenlabs_realtime.py:151-162 | the text emitted in the overlap branch is a tail of the commit |
| Reconciliation.BlankIgnored | elevenlabs_realtime.py:121-123 | a blank or whitespace-only commit emits nothing and leaves the text and time unchanged |
| Reconciliation.FreshCommitVerbatim | elevenlabs_realtime.py:128-137 | with no previous commit, or more than 8.0 seconds after it, the stripped text is emitted verbatim and becomes the state with time `now` |
| Reconciliation.DuplicateIgnored | elevenlabs_realtime.py:139-140 | an exact repeat within the window emits nothing and does not refresh the timestamp |
| Reconciliation.ExtensionEmitsSuffix | elevenlabs_realtime.py:142-146 | if the commit is the previous text plus `s`, `s` left-stripped is emitted and the state becomes the commit at `now` |
| Reconciliation.ExtensionExact | elevenlabs_realtime.py:142-146 | extending the previous text by a stripped `s` emits exactly `s` |
| Reconciliation.ShrinkIgnored | elevenlabs_realtime.py:148-149 | a commit that is a prefix of the previous text emits nothing and keeps the state |
| Reconciliation.OverlapBranch | elevenlabs_realtime.py:151-162 | every other commit within the window becomes the state and emits the text after its overlap with the previous text |
| Reconciliation.OverlapTrimmed | elevenlabs_realtime.py:151-162 | in the overlap case the emitted text is the commit after the largest overlap of 20 to `min(len(P), len(C), 220)` characters, left-stripped; with no such overlap it is the commit verbatim; the state is updated in both cases |
| Reconciliation.ShortOverlapIgnored | elevenlabs_realtime.py:151-162 | when either text is shorter than 20 characters, a non-prefix commit within the window is emitted verbatim |
| Reconciliation.ShortOverlapExample | elevenlabs_realtime.py:151-162 | after "the quick brown", the commit "brown fox jumps" is emitted whole, because a 5-character overlap is below the floor |
| Reconciliation.DeltaIsStrippedTail | elevenlabs_realtime.py:120-162 | on every branch the emitted text is stripped and is a tail of the stripped commit |
| Reconciliation.ExtensionDeltaTail | elevenlabs_realtime.py:142-146 | in the extension branch the emitted text is stripped and is a tail of the stripped commit |
| Reconciliation.DroppedOrAdvanced | elevenlabs_realtime.py:120-162 | on every branch, either the commit is dropped (it is blank or a prefix of the previous text) and the state is kept, or it becomes the state and exactly its rest after a stretch (possibly empty) ending the previous text is emitted, so text already emitted can be emitted again |
| Reconciliation.OverlapAdvances | elevenlabs_realtime.py:151-162 | in the overlap case the commit becomes the state and what is emitted is its rest after a stretch that ends the previous text |
| Reconciliation.AfterOverlapIsTail | elevenlabs_realtime.py:160-162 | the text after the overlap is a stripped tail of the commit |
| Reconciliation.AfterOverlapIsRest | elevenlabs_realtime.py:160-162 | the text after the overlap is the commit's rest after a stretch that ends the previous text |
| Reconciliation.ReconcileKeepsStateStripped | elevenlabs_realtime.py:120-162 | the remembered commit text is always stripped |
| Capture.PadFrame | elevenlabs_realtime.py:191-198 | every chunk has exactly `chunk_samples` samples; its first `min(len(frame), chunk_samples)` samples are the frame's and the rest are zero |
| Capture.IsFull | elevenlabs_realtime.py:51-53 | a queue whose `maxsize` is zero or less is never full, and a full queue is not empty |
| Capture.DropOldestPut | elevenlabs_realtime.py:204-214 | the enqueue grows the queue by one, except on a full queue where its length stays; the result is always the newest entries of the old queue followed by the chunk |
| Capture.DropOldestPutAll | elevenlabs_realtime.py:204-214 | a run of enqueues never overfills a queue that starts within its bound, and with no bound it keeps everything |
| Capture.Newest | elevenlabs_realtime.py:204-214 | the newest `maxsize` entries are exactly `min(len, maxsize)` entries and form a tail of the sequence |
| Capture.DropOldestPutKeepsNewest | elevenlabs_realtime.py:204-214 | a drop-oldest enqueue never exceeds `maxsize` and always ends with the new chunk; it drops nothing when the queue was not full, and exactly the single oldest chunk when it was |
| Capture.DropOldestPutAllKeepsNewest | elevenlabs_realtime.py:204-214 | after any run of enqueues the queue holds exactly the newest `maxsize` chunks, oldest first |
| Capture.OverflowExample | elevenlabs_realtime.py:204-214 | with capacity 3, enqueuing A, B, C, D leaves B, C, D |
| Capture.ChunkQueue.constructor | elevenlabs_realtime.py:51-53 | the queue starts empty with the configured `maxsize` |
| Capture.ChunkQueue.PutNowait | elevenlabs_realtime.py:205 | it appends when the queue is not full; when full it reports that and changes nothing |
| Capture.ChunkQueue.GetNowait | elevenlabs_realtime.py:208 | it removes and returns the oldest chunk, or reports an empty queue and changes nothing |
| Capture.ChunkQueue.IsEmpty | elevenlabs_realtime.py:287 | true exactly when the queue holds nothing |
| Realtime.FitPartial | elevenlabs_realtime.py:106-111 | text within `max(20, width - 1)` is shown whole; longer text is shown as "..." and its newest tail, exactly filling the line |
| Realtime.MaxPartialLen | elevenlabs_realtime.py:108 | the line length `max(20, width - 1)` is at least 20 and at least `width - 1`, and equal to one of them |
| Realtime.FitPartialIdempotent | elevenlabs_realtime.py:106-111 | fitting an already fitted line changes nothing |
| Realtime.SearchOverlap | elevenlabs_realtime.py:151-156 | the downward search with early exit returns the largest overlap of 20 to `min(len(P), len(C), 220)` characters, or 0 exactly when there is none |
| Realtime.Transcriber.constructor | elevenlabs_realtime.py:47-88 | a fresh transcriber has no segments, no partial line, an empty queue of the configured size, and the initial commit state |
| Realtime.Transcriber.DedupeCommittedText | elevenlabs_realtime.py:120-162 | the method emits exactly the text `Reconcile` gives and moves to its next state, so every law of `Reconciliation` holds of it |
| Realtime.Transcriber.HandleCommittedText | elevenlabs_realtime.py:216-236 | a non-empty delta becomes the next numbered segment and ends the partial line; an empty one records nothing; the counter always equals the number of segments |
| Realtime.Transcriber.AppendSegment | elevenlabs_realtime.py:221-236 | the counter advances by one with the segment list, and the partial line is cleared |
| Realtime.Transcriber.EndPartialLine | elevenlabs_realtime.py:164-172 | an active rolling partial line is cleared and forgotten |
| Realtime.Transcriber.OnCommittedTranscript | elevenlabs_realtime.py:255-258 | when timestamps were not requested the event goes through `DedupeCommittedText`, a non-empty result becoming the next segment and ending the partial line; when they were, nothing changes, the partial line included |
| Realtime.Transcriber.OnCommittedWithTimestamps | elevenlabs_realtime.py:260-264 | the same as `OnCommittedTranscript` with the condition reversed, so of the two events only one is ever used |
| Realtime.Transcriber.OnPartialTranscript | elevenlabs_realtime.py:242-253 | a line is rendered exactly when partials are shown and the stripped text is non-empty and differs from the one on screen; it is the fitted text, and otherwise nothing changes |
| Realtime.Transcriber.RenderPartialLine | elevenlabs_realtime.py:113-118 | the fitted text becomes the rolling line and its length is remembered |
| Realtime.Transcriber.OnErrorOrClose | elevenlabs_realtime.py:266-284 | an error or close clears the rolling partial line |
| Realtime.Transcriber.AudioCallback | elevenlabs_realtime.py:185-214 | the padded chunk is recorded and enqueued drop-oldest, and the queue never exceeds its size |
| Realtime.Transcriber.SenderPoll | elevenlabs_realtime.py:286-298 | one sender turn sends the oldest queued chunk, if any |
| Realtime.Transcriber.SenderDrain | elevenlabs_realtime.py:287-298 | once stop is set the loop runs until the queue is empty, so everything still queued is sent, in order |
| Realtime.Transcriber.Stop | elevenlabs_realtime.py:371-373 | setting the stop event and awaiting the sender sends every queued chunk and empties the queue |
| Bridge.DecideStart | app.py:137-147 | a meeting starts exactly on a first message of type "start" (title defaulting to "Untitled Meeting"); any other message is rejected; a disconnect or undecodable frame is abandoned silently |
| Bridge.ErrorText | app.py:256 | the forwarded error text is `error`, else `message`, else `str(data)`, the first one that is non-empty |
| Bridge.EventText | app.py:245 | the text of a partial or committed event, `(text or "").strip()`, is stripped, no longer than the raw text, and empty when there is none |
| Bridge.CommittedTexts | app.py:249-253 | the collected texts are non-empty and stripped, at most one per event |
| Bridge.CommittedTextsAppend | app.py:249-253 | the texts collected from two runs of events are those of the first run followed by those of the second |
| Bridge.Contribution | app.py:249-253 | an event adds one segment exactly when it is a committed event with non-empty stripped text, and that segment carries the stripped text |
| Bridge.Reply | app.py:243-261 | at most one message is sent per event; one is sent exactly when the send succeeds and the event is an error or has non-empty stripped text, and never for a close |
| Bridge.EndsRelay | app.py:243-265 | the relay returns after an event exactly when it was a close, or when the send it made failed; a close always ends it and anything else only on a failed send |
| Bridge.EndsRelayOnFailedReply | app.py:243-265 | the relay ends after an event exactly when it is a close or the reply it would send (`Reply` with a working browser) exists and the send fails |
| Bridge.EndAfter | app.py:243-265 | after one event the relay is still running unless `EndsRelay` holds; it is then `UpstreamClosed` exactly for a close and `SendFailed` otherwise, never the idle exit or a cancellation |
| Bridge.CollectStep | app.py:243-261 | handling one more event keeps the segments equal to the committed texts of the handled events, and the connection counts as closed exactly once a close was handled |
| Bridge.ReplyContent | app.py:243-261 | with a working browser a partial or committed event is answered with its stripped text under its own type when that text is non-empty and with nothing otherwise, an error with its message, and a close with nothing |
| Bridge.ReplyOnSend | app.py:243-265 | what the browser receives for an event is what a working send would deliver, except that a send failing on a message that existed delivers nothing and is exactly the case that ends the relay as `SendFailed` |
| Bridge.Replies | app.py:243-261 | the replies to a run of events are at most one per event and never a `session_started` |
| Bridge.ReplyStep | app.py:243-265 | handling one more event keeps the browser's messages equal to `session_started` followed by the replies to the handled events, the failed send that ended the relay excepted |
| Bridge.BrowserEnds | app.py:210-230 | a disconnect or malformed frame always ends the browser loop; a well-formed message other than audio ends it exactly when it is `stop` |
| Bridge.BrowserAudio | app.py:217-222 | a frame relays at most one payload, and one exactly when it is audio with non-empty data whose send succeeds; that payload is the data and the loop goes on |
| Bridge.QueueDeliver | app.py:188-198 | a callback's event joins the end of the event queue |
| Bridge.QueuePop | app.py:237 | the relay takes the oldest queued event, which is the next one delivered |
| Bridge.Session.constructor | app.py:147-165 | the meeting starts recording with duration 0 and the given title, `session_started` is the only reply so far, no audio was relayed, no commit or close issued, and the relay is running |
| Bridge.Session.Deliver | app.py:188-198 | an SDK callback appends its event to the queue |
| Bridge.Session.BrowserReceive | app.py:210-230 | audio with data is relayed when its send succeeds and ends the loop when it fails; audio without data sends nothing; `stop`, a disconnect and a malformed frame set `stop_requested` and relay nothing; other types are ignored; `stop_requested` is `BrowserEnds` and the relayed audio grows by `BrowserAudio` |
| Bridge.Session.RelayTurn | app.py:235-265 | with the queue empty nothing is sent and the relay returns exactly when a stop was requested, which is its idle exit, having handled every event delivered so far; otherwise the oldest event is handled as in `RelayNext`; the browser has had `session_started` and the replies to the handled events (`ReplyInv`); whenever the relay ends, the number of events delivered by then is recorded |
| Bridge.Session.RelayNext | app.py:243-265 | handling the oldest event adds its contribution to the segments, sends its `Reply`, ends the relay as `EndAfter` says (a close or a failed send), records the events delivered when it ends, and keeps the segments equal to the committed texts of the handled events and the browser's messages equal to `session_started` and their replies |
| Bridge.Session.Pop | app.py:237 | the oldest event leaves the queue and is recorded as handled |
| Bridge.Session.RelayPartial | app.py:244-247 | a partial event leaves the segments alone, sends its `Reply`, and ends the relay as `SendFailed` only when a non-empty text failed to send |
| Bridge.Session.RelayCommitted | app.py:249-253 | a committed event adds its contribution to the segments whether or not the send succeeds, sends its `Reply`, and ends the relay as `SendFailed` only when a non-empty text failed to send |
| Bridge.Session.RelayError | app.py:255-257 | an error event sends its `Reply` and ends the relay as `SendFailed` only when that send fails |
| Bridge.Session.RelayClose | app.py:259-261 | a close marks the connection closed and ends the relay as `UpstreamClosed`, so no later event is handled |
| Bridge.Session.SendFailedEnd | app.py:262-265 | a failed browser send, after an event that had something to send, returns from the relay: the session stays valid, the relay ends as `SendFailed`, and the number of events delivered by then is recorded |
| Bridge.Session.FinalCommit | app.py:276-281 | the final commit is issued exactly when the upstream connection has not closed |
| Bridge.Session.EndBrowserLoop | app.py:273-281 | after the browser loop `stop_requested` holds and the final commit follows |
| Bridge.Session.CancelRelay | app.py:285-296 | a relay still running is cancelled: it ends as `Cancelled` |
| Bridge.Session.CloseOut | app.py:284-319 | after the drain the relay is done (cancelled if it was still running, otherwise as it ended); the connection is closed by the handler exactly when it had not closed; the transcript is the segments; the metadata is completed |
| Bridge.Session.Finalize | app.py:297-319 | `close()` is skipped when the connection closed; the transcript is written; the status becomes completed with `segment_count = len(segments)` and the elapsed seconds truncated to a non-negative integer |
| Bridge.Events | app.py:188-198 | a schedule delivers at most one event per step |
| Bridge.CountRelays | app.py:235-241 | a schedule has at most as many relay turns as steps that deliver no event |
| Bridge.BrowserStopped | app.py:210-230 | once the browser loop has ended it stays ended for the rest of a schedule |
| Bridge.Audio | app.py:210-230 | a schedule relays at most one payload per step, and none at all when the browser loop had already ended |
| Bridge.EventsAppend | app.py:188-198 | the events of two schedules run back to back are those of the first followed by those of the second |
| Bridge.PrefixStep | app.py:188-198 | the events and relay turns of the first `i + 1` steps are those of the first `i` steps plus step `i`'s own |
| Bridge.BrowserStep | app.py:210-230 | one more step ends the browser loop exactly when it had ended or the step is a frame that ends it, and adds that frame's audio only when the loop was still reading |
| Bridge.DeliveredInOrder | app.py:188-198 | the events delivered during the live schedule and then the drain are those of the two schedules run back to back |
| Bridge.ExitStep | app.py:235-265 | a return of the relay found during the live schedule or during the drain falls at one relay turn of the two schedules run back to back (within the live schedule exactly when it was found there), the events delivered by then are those of the steps up to that turn, and after a failed send that turn's send failed |
| Bridge.HandledPrefix | app.py:232-265 | the collected segments are the committed texts of the first `len(consumed)` delivered events, and the handler closes the connection exactly when none of those was a close |
| Bridge.IdleExitWhenDrained | app.py:235-265 | when no close is delivered, every send of the relay succeeds and the drain has more relay turns than there are events, the relay ends through its idle exit having handled every event delivered up to that turn |
| Bridge.Apply | app.py:210-265 | one scheduled step keeps the session valid, the collection invariant and the reply invariant; only an SDK callback delivers an event; a frame ends the browser loop as `BrowserEnds` says and relays `BrowserAudio` only while the loop still reads; a stop is never undone and the relay never gives events back; an ended relay stays as it ended; only a relay turn ends it by itself, never as a cancellation, recording the events delivered so far (after a failed send, that turn's send failed); after a stop, a turn on which the relay goes on handles one event |
| Bridge.ApplyBrowser | app.py:210-230 | a frame is read only while the browser loop still runs: the loop then ends as `BrowserEnds` says and relays `BrowserAudio`; once it has ended, nothing changes |
| Bridge.ApplyRelay | app.py:235-265 | a scheduled relay turn keeps the collection and reply invariants; an ended relay stays as it ended; a relay that ends on this turn records the events delivered so far, never as a cancellation and after a failed send only when this turn's send failed; after a stop a turn on which it goes on handles one event |
| Bridge.ApplyAt | app.py:267-273 | running step `i` keeps the invariants and extends what `Ran` states from `i` steps to `i + 1`: the events, the browser loop's end and the audio of the steps so far, and a return of the relay on this step recorded as step `i + 1` |
| Bridge.RunFrom | app.py:267-273 | running the remaining steps of a schedule keeps the session sound and carries `Ran` to the end of the schedule |
| Bridge.RanNothing | app.py:267-273 | before any step has run, `Ran` holds of the session as it stands: nothing delivered, no audio relayed, nothing handled |
| Bridge.FedStep | app.py:188-230 | one more step keeps `Fed`: the events, the browser loop's end and the audio relayed are those of the steps run so far |
| Bridge.RanStep | app.py:232-273 | one more step keeps `Ran`, and a relay turn on which the relay returns by itself becomes the recorded exit step |
| Bridge.RunSchedule | app.py:267-273 | a whole schedule keeps the invariants and delivers exactly the schedule's events, in order; the browser loop ends as `BrowserStopped` says and the audio relayed is `Audio` of the schedule; a return of the relay during it falls on relay turn `exitStep` and records the events delivered up to that step; after an earlier stop, a relay still running has handled one event per relay turn |
| Bridge.RunLive | app.py:147-273 | the meeting opens recording with duration 0; the live schedule's events are delivered in order; the audio relayed is that of the frames read before the browser loop ended; no commit or close has been issued; the browser has had `session_started` and the replies to the handled events; and a return of the relay falls on a relay turn of that schedule, never as a cancellation |
| Bridge.RunDrain | app.py:273-284 | after the browser loop `stop_requested` holds, no further audio is relayed, and the final commit is issued exactly when the upstream had not closed; the relay drains on the drain schedule keeping the invariants; an earlier return stays recorded, a new one falls on a relay turn of the drain, and a relay still running has handled at least one event per relay turn of the drain |
| Bridge.RunMeeting | app.py:205-319 | on every schedule the meeting ends completed with the truncated duration and the segment count; the transcript and the close are accounted for by `RelayAccount` (the committed texts of the first `handled` delivered events, stopping at the first close; through the idle exit every event delivered up to that relay turn; after a failed send, a turn whose send failed; when cancelled, at least one event per drain relay turn); the replies are `session_started` followed by the replies to those `handled` events, the failed send excepted; the audio is that of the frames read before the browser loop ended; and the final commit is issued unless the relay returned after a close during the live schedule |
| Bridge.RunLoops | app.py:205-284 | both loops and the drain leave the meeting recording with the stop requested and no close issued; the segments are accounted for by `RelayAccount`; the replies are `session_started` followed by what the relay forwarded; the audio is that of the frames read before the browser loop ended; the final commit is issued unless the relay returned after a close during the live schedule |
| Bridge.Conclude | app.py:297-319 | the `finally` block leaves the replies, audio and final commit as they stood, closes the connection exactly when the upstream had not closed, writes the collected segments as the transcript and completes the metadata with the truncated duration and `len(segments)` |
| Bridge.CommitAccount | app.py:273-281 | the final commit is issued exactly when the upstream had not closed by the end of the live schedule, that is, unless the relay returned after a close on a live step |
| Bridge.AccountFromRun | app.py:235-319 | the state the relay leaves after the drain (queue, segments, replies, how it ended and where) establishes `RelayAccount` for the run and gives the replies as `session_started` followed by what the relay forwarded for the handled events |
| Bridge.WsTranscribe | app.py:132-325 | a rejected start replies "Expected start message" and creates nothing; an abandoned or malformed start replies nothing and creates nothing; a failed `session_started` send or a failed connect leaves the metadata recording with no transcript, relays no audio and issues no commit, the failed connect replying `session_started` and the connect error; otherwise the meeting is completed and its transcript, replies, audio and final commit are accounted for as in `RunMeeting` |
| Bridge.QueueTwoThenDisconnect | app.py:188-230 | two events are queued, the browser disconnects, `stop_requested` is set and the final commit is issued, with nothing handled and only `session_started` sent |
| Bridge.QueueTwo | app.py:147-198 | a new meeting with two events queued has handled nothing, sent only `session_started`, and issued no stop, commit or close |
| Bridge.RelayCommit | app.py:249-253 | the relay takes a queued committed text off the queue, adds it to the segments with its stamp, forwards it, and goes on running |
| Bridge.RelayLastCommit | app.py:235-253 | the relay forwards and keeps the last queued committed text, then finds the queue empty after the stop and takes its idle exit |
| Bridge.RelayTwoCommits | app.py:235-253 | the relay handles both queued commits, forwards both texts in order, keeps both segments, and then returns through its idle exit |
| Bridge.DisconnectKeepsQueuedCommits | app.py:205-319 | a browser that disconnects with two committed texts still queued gets `session_started` and both texts forwarded, both segments are in the transcript, the meeting is completed with `segment_count` 2, and the handler issues the final commit and the close |
| Bridge.RelaysDeliverNothing | app.py:188-198 | a schedule of relay turns only delivers no event |
| Bridge.DisconnectSchedule | app.py:188-241 | the schedule of two commits, a disconnect and three relay turns delivers exactly the two commits, all its relay sends succeed, and every relay turn comes after both were delivered |
| Bridge.DisconnectLive | app.py:188-198 | the live schedule of the scenario delivers its two committed events |
| Bridge.ThreeRelays | app.py:235-241 | the drain of the scenario has three relay turns and no prefix of it delivers an event |
| Bridge.DisconnectAccount | app.py:235-319 | whatever `RelayAccount` allows, in the scenario the relay takes its idle exit after handling both events, whose committed texts are the transcript |
| Bridge.DisconnectTexts | app.py:249-253 | the committed texts of the scenario are its two texts, in order |
| Bridge.TwoCommittedReplies | app.py:249-253 | two committed texts are answered with those texts, in order |
| Bridge.DisconnectReplies | app.py:243-261 | after an idle exit having handled both commits, the browser has `session_started` and then both texts |
| Bridge.DisconnectAudio | app.py:210-230 | a browser that only disconnects relays no audio |
| Bridge.HandlerKeepsQueuedCommits | app.py:132-325 | through the whole handler, a browser that disconnects with two committed texts still queued gets `session_started` and both texts, relays no audio, and ends with both texts in the transcript, `segment_count` 2, the meeting completed, and the final commit and the close issued by the handler |

## Left out

- File and terminal output are not modelled: `metadata.json`, `transcript.json`, `stream.wav`, the segment files, the transcript header and the printing. Each file is modelled by the value written to it, or by the list of texts appended.
- The ElevenLabs SDK is replaced by parameters and events: `connect`, `send`, `commit`, `close`, `RealtimeAudioOptions`, `_build_options` and the language option.
- Websockets, uvicorn and FastAPI wiring, and `ws.close()`, are not modelled.
- Concurrency is reduced to one interleaving given by a schedule. This covers `asyncio` tasks, `wait_for` timeouts, sleeps, `threading.Event` and `threading.Lock`; locks only serialise file writes.
  - When the live schedule runs out, the browser loop counts as disconnected.
  - When the drain schedule runs out, a relay still running counts as cancelled.
- Clocks are parameters: `time.monotonic()` is `now`, `now_stamp()` and `datetime.now()` are strings passed in, and the event loop's time is `elapsed`.
- Clock readings are exact `real` numbers. The floating-point rounding of `time.monotonic()` and of the event loop's clock is not modelled, so `now - last > 8.0` and the duration are computed without rounding error.
- Meeting ids, `uuid`, and the meeting directory layout are not modelled.
- Base64 encoding of audio in `_sender_loop` and in the browser's frames is not modelled; audio payloads are opaque.
- The sender loop's turns while the stop event is unset are not modelled as a loop: `SenderPoll` models one such turn, and `SenderDrain` models the loop from the moment the stop event is set.
- JSON values other than strings and absent keys are not modelled. A `title` that is JSON `null` is treated as absent, whereas the code would store `null`. An event payload that is not an object would make the relay return, and this is not modelled.
- The REST endpoints of `app.py` (lines 75-125), `local_realtime.py`, argument parsing, API-key checks, and the computation of `chunk_samples` from the sample rate are not part of this model.
- Realtime.Transcriber.AudioCallback: takes the frame as a single channel of 16-bit samples already cut from `indata`. The `astype(np.int16)` conversion of the full-size branch is the identity on such samples.
- Bridge.ErrorText: `str(data)` is an input string (`repr`), not computed from the payload.
- The worked example of a long overlap (more than 20 characters cut from the front of a commit) is not included. The general law `Reconciliation.OverlapTrimmed` covers that branch, and `Reconciliation.ShortOverlapExample` shows the short case.
