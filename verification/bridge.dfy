/** The browser <-> ElevenLabs bridge of the web server (`ws_transcribe`):
    the first control message opens a meeting, audio from the browser is
    relayed upstream, upstream transcript events are relayed back and the
    committed ones collected, and the meeting is finalised on every exit.
    The websocket, the SDK connection, the clock and the scheduler are
    replaced by inputs: a schedule of browser messages, upstream events and
    relay turns, in the order the event loop happened to run them. */
module Bridge {
  import opened PyText

  /** A frame from the browser after `json.loads`: a disconnect, text that
      is not JSON, JSON that is not an object, or an object with its
      `type`, `title` and `data` entries (None when absent). */
  datatype Inbound =
    | Disconnect
    | Undecodable
    | NotAnObject
    | Message(kind: Option<string>, title: Option<string>, data: Option<string>)

  /** A JSON message sent to the browser. */
  datatype Outbound =
    | SessionStarted(meetingId: string)
    | PartialOut(text: string)
    | CommittedOut(text: string)
    | ErrorOut(message: string)

  /** An event the SDK callbacks put on the event queue; `repr` is `str(data)`. */
  datatype UpstreamEvent =
    | Partial(text: Option<string>)
    | Committed(text: Option<string>)
    | UpstreamError(error: Option<string>, message: Option<string>, repr: string)
    | Close

  datatype Status = Recording | Completed

  /** `metadata.json`; `segmentCount` is absent until the meeting is finalised. */
  datatype Metadata = Metadata(title: string, createdAt: string, status: Status, duration: int, segmentCount: Option<nat>)

  /** One entry of `transcript.json`. */
  datatype Segment = Segment(text: string, timestamp: string)

  const DefaultTitle: string := "Untitled Meeting"
  const ExpectedStart: string := "Expected start message"
  const ConnectFailedPrefix: string := "ElevenLabs connection failed: "

  /** What the first browser frame leads to: a meeting with a title, an
      error reply and close (`Reject`), a silent return (`Abandon`), or an
      exception out of the handler (`Raise`: `.get` on a non-object). */
  datatype StartDecision = Begin(title: string) | Reject | Abandon | Raise

  function DecideStart(first: Inbound): (d: StartDecision)
    ensures d.Begin? <==> first.Message? && first.kind == Some("start")
    ensures d.Reject? <==> first.Message? && first.kind != Some("start")
    ensures d.Abandon? <==> first.Disconnect? || first.Undecodable?
    ensures d.Begin? && first.title.None? ==> d.title == DefaultTitle
    ensures d.Begin? && first.title.Some? ==> d.title == first.title.value
  {
    match first
    case Disconnect => Abandon
    case Undecodable => Abandon
    case NotAnObject => Raise
    case Message(kind, title, _) =>
      if kind != Some("start") then Reject
      else Begin(if title.Some? then title.value else DefaultTitle)
  }

  /** `data.get("error") or data.get("message") or str(data)`: the first of
      the three that is a non-empty string. */
  function ErrorText(e: UpstreamEvent): (m: string)
    requires e.UpstreamError?
    ensures m == OrEmpty(e.error) || m == OrEmpty(e.message) || m == e.repr
    ensures OrEmpty(e.error) != "" ==> m == e.error.value
    ensures OrEmpty(e.error) == "" && OrEmpty(e.message) != "" ==> m == e.message.value
    ensures e.repr != "" ==> m != ""
  {
    if OrEmpty(e.error) != "" then e.error.value
    else if OrEmpty(e.message) != "" then e.message.value
    else e.repr
  }

  /** `(data.get("text") or "").strip()`. */
  function EventText(t: Option<string>): (r: string)
    ensures IsStripped(r) && |r| <= |OrEmpty(t)|
    ensures t.None? ==> r == ""
  {
    Strip(OrEmpty(t))
  }

  /** The texts a run of events contributes to the transcript: the stripped
      text of each committed event that has any, in arrival order. */
  function CommittedTexts(events: seq<UpstreamEvent>): (r: seq<string>)
    ensures |r| <= |events|
    ensures forall i :: 0 <= i < |r| ==> r[i] != "" && IsStripped(r[i])
  {
    if events == [] then []
    else
      var init := events[..|events| - 1];
      var last := events[|events| - 1];
      CommittedTexts(init)
        + (if last.Committed? && EventText(last.text) != "" then [EventText(last.text)] else [])
  }

  /** The texts collected from two runs of events, one after the other,
      are those of the first run followed by those of the second. */
  lemma {:induction false} CommittedTextsAppend(a: seq<UpstreamEvent>, b: seq<UpstreamEvent>)
    ensures CommittedTexts(a + b) == CommittedTexts(a) + CommittedTexts(b)
    decreases |b|
  {
    if b == [] {
      assert a + b == a;
    } else {
      var b' := b[..|b| - 1];
      assert (a + b)[..|a + b| - 1] == a + b';
      CommittedTextsAppend(a, b');
    }
  }

  /** The texts of a list of segments. */
  function Texts(segments: seq<Segment>): (r: seq<string>)
    ensures |r| == |segments|
    ensures forall i :: 0 <= i < |r| ==> r[i] == segments[i].text
  {
    seq(|segments|, i requires 0 <= i < |segments| => segments[i].text)
  }

  /** The event queue: the relay has taken the first events the SDK
      delivered, in order, and the rest wait in the queue, in order. */
  ghost predicate QueueInv(delivered: seq<UpstreamEvent>, consumed: seq<UpstreamEvent>, pending: seq<UpstreamEvent>) {
    && |consumed| <= |delivered|
    && consumed == delivered[..|consumed|]
    && pending == delivered[|consumed|..]
  }

  /** The collected segments are the committed texts of the events the
      relay has handled, and the upstream connection counts as closed
      exactly when one of those was a close. */
  ghost predicate CollectInv(consumed: seq<UpstreamEvent>, segments: seq<Segment>, elClosed: bool) {
    && Texts(segments) == CommittedTexts(consumed)
    && (elClosed <==> Close in consumed)
  }

  /** A callback delivers one more event: it joins the end of the queue. */
  lemma QueueDeliver(delivered: seq<UpstreamEvent>, consumed: seq<UpstreamEvent>, pending: seq<UpstreamEvent>, e: UpstreamEvent)
    requires QueueInv(delivered, consumed, pending)
    ensures QueueInv(delivered + [e], consumed, pending + [e])
  {
    assert (delivered + [e])[..|consumed|] == delivered[..|consumed|];
    assert (delivered + [e])[|consumed|..] == delivered[|consumed|..] + [e];
  }

  /** The relay takes the oldest queued event, which is the next one delivered. */
  lemma QueuePop(delivered: seq<UpstreamEvent>, consumed: seq<UpstreamEvent>, pending: seq<UpstreamEvent>)
    requires QueueInv(delivered, consumed, pending) && pending != []
    ensures QueueInv(delivered, consumed + [pending[0]], pending[1..])
  {
    assert delivered[..|consumed| + 1] == delivered[..|consumed|] + [delivered[|consumed|]];
  }

  /** The segments the relay adds when it handles `e` at clock reading
      `stamp`: the stripped text of a committed event, when it has any. */
  function Contribution(e: UpstreamEvent, stamp: string): (r: seq<Segment>)
    ensures r != [] <==> e.Committed? && EventText(e.text) != ""
    ensures r != [] ==> r == [Segment(EventText(e.text), stamp)]
  {
    if e.Committed? && EventText(e.text) != "" then [Segment(EventText(e.text), stamp)] else []
  }

  /** What the relay sends the browser for `e`; `sendOk` says whether the
      send succeeds (a failed send delivers nothing). */
  function Reply(e: UpstreamEvent, sendOk: bool): (r: seq<Outbound>)
    ensures |r| <= 1
    ensures r != [] <==> sendOk && !e.Close? && (e.UpstreamError? || EventText(e.text) != "")
  {
    if !sendOk then []
    else
      match e
      case Partial(t) => if EventText(t) != "" then [PartialOut(EventText(t))] else []
      case Committed(t) => if EventText(t) != "" then [CommittedOut(EventText(t))] else []
      case UpstreamError(_, _, _) => [ErrorOut(ErrorText(e))]
      case Close => []
  }

  /** Whether handling `e` ends the relay: a close always does; any other
      event only when it had something to send and the send failed. */
  predicate EndsRelay(e: UpstreamEvent, sendOk: bool)
    ensures e.Close? ==> EndsRelay(e, sendOk)
    ensures EndsRelay(e, sendOk) && !e.Close? ==> !sendOk
  {
    e.Close? || (!sendOk && (e.UpstreamError? || EventText(e.text) != ""))
  }

  /** The relay ends on an event exactly when it is a close, or when the
      send of the reply the event would get fails. */
  lemma EndsRelayOnFailedReply(e: UpstreamEvent, sendOk: bool)
    ensures EndsRelay(e, sendOk) <==> e.Close? || (!sendOk && Reply(e, true) != [])
  {
  }

  /** How the relay task stands: still running, returned through its idle
      exit, returned after a close or after a failed send, or cancelled by
      the handler. */
  datatype RelayEnd = Running | IdleExit | UpstreamClosed | SendFailed | Cancelled

  /** How the relay stands after handling `e`: a close ends it as closed,
      a failed send of something to send as failed, anything else not. */
  function EndAfter(e: UpstreamEvent, sendOk: bool): (r: RelayEnd)
    ensures r != Running <==> EndsRelay(e, sendOk)
    ensures r == UpstreamClosed <==> e.Close?
    ensures r != IdleExit && r != Cancelled
  {
    if e.Close? then UpstreamClosed else if EndsRelay(e, sendOk) then SendFailed else Running
  }

  /** Handling one more event keeps the collected segments equal to the
      committed texts of the handled events, and the connection counts as
      closed once a close was handled. */
  lemma CollectStep(consumed: seq<UpstreamEvent>, segments: seq<Segment>, elClosed: bool, e: UpstreamEvent, stamp: string)
    requires CollectInv(consumed, segments, elClosed)
    ensures CollectInv(consumed + [e], segments + Contribution(e, stamp), elClosed || e.Close?)
  {
    var next := consumed + [e];
    assert next[..|next| - 1] == consumed && next[|next| - 1] == e;
    var added := Contribution(e, stamp);
    TextsAppend(segments, added);
    assert Texts(added) == if e.Committed? && EventText(e.text) != "" then [EventText(e.text)] else [];
    assert Close in next <==> Close in consumed || e == Close;
  }

  lemma TextsAppend(a: seq<Segment>, b: seq<Segment>)
    ensures Texts(a + b) == Texts(a) + Texts(b)
  {
    assert forall i :: 0 <= i < |a + b| ==> Texts(a + b)[i] == (Texts(a) + Texts(b))[i];
  }

  /** What the relay sends for each kind of event when the send succeeds:
      a partial or committed event its stripped text, when there is any,
      an error its message, a close nothing. */
  lemma ReplyContent(e: UpstreamEvent)
    ensures e.Partial? ==> Reply(e, true) == if EventText(e.text) == "" then [] else [PartialOut(EventText(e.text))]
    ensures e.Committed? ==> Reply(e, true) == if EventText(e.text) == "" then [] else [CommittedOut(EventText(e.text))]
    ensures e.UpstreamError? ==> Reply(e, true) == [ErrorOut(ErrorText(e))]
    ensures e.Close? ==> Reply(e, true) == []
  {
  }

  /** A send that fails without ending the relay had nothing to send, so
      the browser gets exactly what it would have got from a working send;
      after a send that ends the relay it gets nothing. */
  lemma ReplyOnSend(e: UpstreamEvent, sendOk: bool)
    ensures Reply(e, sendOk) == if EndAfter(e, sendOk) == SendFailed then [] else Reply(e, true)
  {
    EndsRelayOnFailedReply(e, sendOk);
  }

  /** The replies a working browser gets for `events`, in order. */
  function Replies(events: seq<UpstreamEvent>): (r: seq<Outbound>)
    ensures |r| <= |events|
    ensures forall k :: 0 <= k < |r| ==> !r[k].SessionStarted?
  {
    if events == [] then []
    else Replies(events[..|events| - 1]) + Reply(events[|events| - 1], true)
  }

  /** What reached the browser from a relay that has handled `handled` and
      stands as `end`: the reply to every handled event, except that the
      failed send which ended the relay delivered nothing. */
  function Forwarded(handled: seq<UpstreamEvent>, end: RelayEnd): seq<Outbound> {
    if end == SendFailed && handled != [] then Replies(handled[..|handled| - 1]) else Replies(handled)
  }

  /** The browser has had `session_started` and then what the relay
      forwarded for the events it handled. */
  ghost predicate ReplyInv(toBrowser: seq<Outbound>, meetingId: string, consumed: seq<UpstreamEvent>, ended: RelayEnd) {
    toBrowser == [SessionStarted(meetingId)] + Forwarded(consumed, ended)
  }

  /** Handling one more event while the relay runs keeps `ReplyInv`. */
  lemma ReplyStep(toBrowser: seq<Outbound>, meetingId: string, consumed: seq<UpstreamEvent>,
                  e: UpstreamEvent, sendOk: bool)
    requires ReplyInv(toBrowser, meetingId, consumed, Running)
    ensures ReplyInv(toBrowser + Reply(e, sendOk), meetingId, consumed + [e], EndAfter(e, sendOk))
  {
    var next := consumed + [e];
    assert next[..|next| - 1] == consumed;
    ReplyOnSend(e, sendOk);
    if EndAfter(e, sendOk) == SendFailed {
      assert Forwarded(next, SendFailed) == Replies(consumed);
    } else {
      assert Forwarded(next, EndAfter(e, sendOk)) == Replies(consumed) + Reply(e, true);
      assert toBrowser + Reply(e, sendOk) == [SessionStarted(meetingId)] + (Replies(consumed) + Reply(e, true));
    }
  }

  /** Whether a browser frame ends `browser_to_elevenlabs`: a `stop`, a
      disconnect, a malformed frame, or audio whose upstream send failed. */
  predicate BrowserEnds(msg: Inbound, sendOk: bool)
    ensures !msg.Message? ==> BrowserEnds(msg, sendOk)
    ensures msg.Message? && msg.kind != Some("audio") ==> (BrowserEnds(msg, sendOk) <==> msg.kind == Some("stop"))
  {
    !msg.Message? || msg.kind == Some("stop") || (msg.kind == Some("audio") && OrEmpty(msg.data) != "" && !sendOk)
  }

  /** The audio a browser frame relays upstream: the data of an audio
      message that has any, when the send succeeds. */
  function BrowserAudio(msg: Inbound, sendOk: bool): (r: seq<string>)
    ensures |r| <= 1
    ensures r != [] <==> msg.Message? && msg.kind == Some("audio") && OrEmpty(msg.data) != "" && sendOk
    ensures r != [] ==> !BrowserEnds(msg, sendOk) && r == [OrEmpty(msg.data)]
  {
    if msg.Message? && msg.kind == Some("audio") && OrEmpty(msg.data) != "" && sendOk then [msg.data.value] else []
  }

  /** The handler's state once a meeting exists. The ghost fields record
      every event the SDK has delivered and those the relay has taken off
      the queue. */
  class Session {
    const meetingId: string
    var metadata: Metadata
    var segments: seq<Segment>
    var stopRequested: bool
    var elClosed: bool
    /** The relay task has returned or been cancelled. */
    var relayDone: bool
    /** `event_queue`. */
    var pending: seq<UpstreamEvent>
    /** Messages sent to the browser, in order. */
    var toBrowser: seq<Outbound>
    /** Audio payloads relayed upstream, in order. */
    var toUpstream: seq<string>
    /** The final `connection.commit()` was issued. */
    var commitIssued: bool
    /** The handler itself called `connection.close()`. */
    var closeIssued: bool
    /** `transcript.json`, once written. */
    var transcript: Option<seq<Segment>>
    ghost var delivered: seq<UpstreamEvent>
    ghost var consumed: seq<UpstreamEvent>
    /** How the relay task ended, if it has. */
    ghost var ended: RelayEnd
    /** How many events had been delivered when the relay returned by itself. */
    ghost var exitAt: nat

    ghost predicate Valid()
      reads this
    {
      && QueueInv(delivered, consumed, pending)
      && (relayDone <==> ended != Running)
      && (elClosed <==> ended == UpstreamClosed)
      && (ended == IdleExit ==> |consumed| == exitAt)
      && (ended == UpstreamClosed ==> 0 < |consumed| <= exitAt && consumed[|consumed| - 1] == Close)
      && (ended == SendFailed ==> 0 < |consumed| <= exitAt && EndAfter(consumed[|consumed| - 1], false) == SendFailed)
      && toBrowser != [] && toBrowser[0] == SessionStarted(meetingId)
      && (transcript.None? <==> metadata.status == Recording)
      && (transcript.Some? ==>
            && transcript.value == segments
            && metadata.segmentCount == Some(|segments|)
            && metadata.duration >= 0)
    }

    /** A session whose meeting is recording, with the relay's segments and
        replies accounted for by the events it handled. */
    ghost predicate Sound()
      reads this
    {
      && Valid() && metadata.status == Recording
      && CollectInv(consumed, segments, elClosed)
      && ReplyInv(toBrowser, meetingId, consumed, ended)
    }

    /** The fields a schedule run is followed by. */
    ghost function Snap(): Snapshot
      reads this
    {
      Snapshot(delivered, stopRequested, |consumed|, ended, exitAt, toUpstream)
    }

    /** The meeting directory and its first `metadata.json`, and the
        `session_started` reply. */
    constructor (meetingId: string, title: string, createdAt: string)
      ensures Valid() && CollectInv(consumed, segments, elClosed) && ReplyInv(toBrowser, meetingId, consumed, ended)
      ensures this.meetingId == meetingId
      ensures metadata == Metadata(title, createdAt, Recording, 0, None)
      ensures toBrowser == [SessionStarted(meetingId)]
      ensures segments == [] && pending == [] && delivered == [] && toUpstream == []
      ensures !stopRequested && !elClosed && !relayDone && !commitIssued && !closeIssued && ended == Running
    {
      this.meetingId := meetingId;
      metadata := Metadata(title, createdAt, Recording, 0, None);
      segments := [];
      stopRequested := false;
      elClosed := false;
      relayDone := false;
      pending := [];
      toBrowser := [SessionStarted(meetingId)];
      toUpstream := [];
      commitIssued := false;
      closeIssued := false;
      transcript := None;
      delivered := [];
      consumed := [];
      ended := Running;
      exitAt := 0;
    }

    /** An SDK callback (`on_partial`, `on_committed`, `on_error`,
        `on_close`): the event joins the queue. */
    method Deliver(e: UpstreamEvent)
      requires Valid()
      modifies this`pending, this`delivered
      ensures Valid()
      ensures pending == old(pending) + [e] && delivered == old(delivered) + [e]
    {
      QueueDeliver(delivered, consumed, pending, e);
      pending := pending + [e];
      delivered := delivered + [e];
      assert QueueInv(delivered, consumed, pending);
    }

    /** One message read by `browser_to_elevenlabs`. An audio message with
        data is relayed (a failed send ends the loop); one without data sends
        nothing; `stop`, a disconnect and any malformed frame end the loop;
        other messages are ignored. `sendOk` says whether the upstream send succeeded. */
    method BrowserReceive(msg: Inbound, sendOk: bool)
      requires Valid() && !stopRequested
      modifies this`stopRequested, this`toUpstream
      ensures Valid()
      ensures stopRequested == BrowserEnds(msg, sendOk)
      ensures toUpstream == old(toUpstream) + BrowserAudio(msg, sendOk)
      ensures !msg.Message? ==> stopRequested && toUpstream == old(toUpstream)
      ensures msg.Message? && msg.kind == Some("audio") && OrEmpty(msg.data) != "" ==>
                if sendOk then !stopRequested && toUpstream == old(toUpstream) + [msg.data.value]
                else stopRequested && toUpstream == old(toUpstream)
      ensures msg.Message? && msg.kind == Some("audio") && OrEmpty(msg.data) == "" ==>
                !stopRequested && toUpstream == old(toUpstream)
      ensures msg.Message? && msg.kind == Some("stop") ==> stopRequested && toUpstream == old(toUpstream)
      ensures msg.Message? && msg.kind != Some("audio") && msg.kind != Some("stop") ==>
                !stopRequested && toUpstream == old(toUpstream)
    {
      match msg
      case Message(kind, _, data) =>
        if kind == Some("audio") {
          if OrEmpty(data) != "" {
            if sendOk {
              toUpstream := toUpstream + [data.value];
            } else {
              stopRequested := true;
            }
          }
        } else if kind == Some("stop") {
          stopRequested := true;
        }
      case _ =>
        stopRequested := true;
    }

    /** One turn of `elevenlabs_to_browser`: with the queue empty the wait
        times out, and the relay returns only once a stop was requested;
        otherwise the oldest event is taken off the queue and handled.
        `sendOk` says whether a send to the browser in this turn succeeds,
        `stamp` is the clock reading a committed segment is stamped with. */
    method RelayTurn(sendOk: bool, stamp: string)
      requires Valid() && !relayDone && metadata.status == Recording
      requires CollectInv(consumed, segments, elClosed) && ReplyInv(toBrowser, meetingId, consumed, ended)
      modifies this`pending, this`consumed, this`segments, this`toBrowser, this`elClosed, this`relayDone
      modifies this`ended, this`exitAt
      ensures Valid() && CollectInv(consumed, segments, elClosed) && ReplyInv(toBrowser, meetingId, consumed, ended)
      ensures ended != Running ==> exitAt == |delivered|
      ensures ended == IdleExit ==> consumed == delivered
      ensures old(pending) == [] ==>
                && pending == [] && consumed == old(consumed) && segments == old(segments)
                && toBrowser == old(toBrowser) && elClosed == old(elClosed)
                && ended == (if stopRequested then IdleExit else Running)
      ensures old(pending) != [] ==>
                && pending == old(pending)[1..]
                && consumed == old(consumed) + [old(pending)[0]]
                && segments == old(segments) + Contribution(old(pending)[0], stamp)
                && toBrowser == old(toBrowser) + Reply(old(pending)[0], sendOk)
                && ended == EndAfter(old(pending)[0], sendOk)
    {
      if pending == [] {
        if stopRequested {
          relayDone := true;
          ended := IdleExit;
          exitAt := |delivered|;
        }
      } else {
        RelayNext(sendOk, stamp);
      }
    }

    /** Handles the oldest queued event: the collected segments grow by
        what it contributes, and a close marks the connection closed. */
    method RelayNext(sendOk: bool, stamp: string)
      requires Valid() && !relayDone && metadata.status == Recording && pending != []
      requires CollectInv(consumed, segments, elClosed) && ReplyInv(toBrowser, meetingId, consumed, ended)
      modifies this`pending, this`consumed, this`segments, this`toBrowser, this`elClosed, this`relayDone
      modifies this`ended, this`exitAt
      ensures Valid() && CollectInv(consumed, segments, elClosed) && ReplyInv(toBrowser, meetingId, consumed, ended)
      ensures pending == old(pending)[1..] && consumed == old(consumed) + [old(pending)[0]]
      ensures segments == old(segments) + Contribution(old(pending)[0], stamp)
      ensures elClosed == (old(elClosed) || old(pending)[0].Close?)
      ensures toBrowser == old(toBrowser) + Reply(old(pending)[0], sendOk)
      ensures ended == EndAfter(old(pending)[0], sendOk)
      ensures ended != Running ==> exitAt == |delivered|
    {
      if pending[0].Partial? {
        RelayPartial(sendOk, stamp);
      } else if pending[0].Committed? {
        RelayCommitted(sendOk, stamp);
      } else if pending[0].UpstreamError? {
        RelayError(sendOk, stamp);
      } else {
        RelayClose(sendOk, stamp);
      }
      assert CollectInv(consumed, segments, elClosed) by {
        CollectStep(old(consumed), old(segments), old(elClosed), old(pending)[0], stamp);
      }
      assert ReplyInv(toBrowser, meetingId, consumed, ended) by {
        ReplyStep(old(toBrowser), meetingId, old(consumed), old(pending)[0], sendOk);
      }
    }

    /** Takes the oldest event off the queue and records it as consumed. */
    method Pop() returns (e: UpstreamEvent)
      requires pending != [] && QueueInv(delivered, consumed, pending)
      modifies this`pending, this`consumed
      ensures e == old(pending)[0] && pending == old(pending)[1..]
      ensures consumed == old(consumed) + [e]
      ensures QueueInv(delivered, consumed, pending)
    {
      QueuePop(delivered, consumed, pending);
      e := pending[0];
      pending := pending[1..];
      consumed := consumed + [e];
    }

    /** A `partial` event: its stripped text is forwarded when non-empty,
        and a failed send ends the relay; the segments do not change. */
    method RelayPartial(sendOk: bool, stamp: string)
      requires Valid() && !relayDone && metadata.status == Recording
      requires pending != [] && pending[0].Partial?
      modifies this`pending, this`consumed, this`segments, this`toBrowser, this`elClosed, this`relayDone
      modifies this`ended, this`exitAt
      ensures Valid()
      ensures pending == old(pending)[1..] && consumed == old(consumed) + [old(pending)[0]]
      ensures segments == old(segments) + Contribution(old(pending)[0], stamp)
      ensures elClosed == (old(elClosed) || old(pending)[0].Close?)
      ensures toBrowser == old(toBrowser) + Reply(old(pending)[0], sendOk)
      ensures ended == EndAfter(old(pending)[0], sendOk)
      ensures ended != Running ==> exitAt == |delivered|
    {
      var e := Pop();
      var text := EventText(e.text);
      if text != "" {
        if sendOk {
          toBrowser := toBrowser + [PartialOut(text)];
        } else {
          SendFailedEnd();
        }
      }
    }

    /** A `committed` event: non-empty stripped text becomes the next
        segment and is then forwarded; it is kept even when the send fails
        and the relay ends. */
    method RelayCommitted(sendOk: bool, stamp: string)
      requires Valid() && !relayDone && metadata.status == Recording
      requires pending != [] && pending[0].Committed?
      modifies this`pending, this`consumed, this`segments, this`toBrowser, this`elClosed, this`relayDone
      modifies this`ended, this`exitAt
      ensures Valid()
      ensures pending == old(pending)[1..] && consumed == old(consumed) + [old(pending)[0]]
      ensures segments == old(segments) + Contribution(old(pending)[0], stamp)
      ensures elClosed == (old(elClosed) || old(pending)[0].Close?)
      ensures toBrowser == old(toBrowser) + Reply(old(pending)[0], sendOk)
      ensures ended == EndAfter(old(pending)[0], sendOk)
      ensures ended != Running ==> exitAt == |delivered|
    {
      var e := Pop();
      var text := EventText(e.text);
      if text != "" {
        segments := segments + [Segment(text, stamp)];
      }
      if text != "" {
        if sendOk {
          toBrowser := toBrowser + [CommittedOut(text)];
        } else {
          SendFailedEnd();
        }
      }
    }

    /** An `error` event: its message is forwarded and the relay goes on,
        unless the send fails. */
    method RelayError(sendOk: bool, stamp: string)
      requires Valid() && !relayDone && metadata.status == Recording
      requires pending != [] && pending[0].UpstreamError?
      modifies this`pending, this`consumed, this`segments, this`toBrowser, this`elClosed, this`relayDone
      modifies this`ended, this`exitAt
      ensures Valid()
      ensures pending == old(pending)[1..] && consumed == old(consumed) + [old(pending)[0]]
      ensures segments == old(segments) + Contribution(old(pending)[0], stamp)
      ensures elClosed == (old(elClosed) || old(pending)[0].Close?)
      ensures toBrowser == old(toBrowser) + Reply(old(pending)[0], sendOk)
      ensures ended == EndAfter(old(pending)[0], sendOk)
      ensures ended != Running ==> exitAt == |delivered|
    {
      var e := Pop();
      if sendOk {
        toBrowser := toBrowser + [ErrorOut(ErrorText(e))];
      } else {
        SendFailedEnd();
      }
    }

    /** A `close` event: the upstream connection is marked closed and the
        relay returns, so no later event is handled. It sends nothing and
        adds no segment; `sendOk` and `stamp` are there so that all four
        handlers share one contract. */
    method RelayClose(sendOk: bool, stamp: string)
      requires Valid() && !relayDone && metadata.status == Recording
      requires pending != [] && pending[0].Close?
      modifies this`pending, this`consumed, this`segments, this`toBrowser, this`elClosed, this`relayDone
      modifies this`ended, this`exitAt
      ensures Valid()
      ensures pending == old(pending)[1..] && consumed == old(consumed) + [old(pending)[0]]
      ensures segments == old(segments) + Contribution(old(pending)[0], stamp)
      ensures elClosed == (old(elClosed) || old(pending)[0].Close?)
      ensures toBrowser == old(toBrowser) + Reply(old(pending)[0], sendOk)
      ensures ended == EndAfter(old(pending)[0], sendOk)
      ensures ended != Running ==> exitAt == |delivered|
    {
      var e := Pop();
      elClosed := true;
      relayDone := true;
      ended := UpstreamClosed;
      exitAt := |delivered|;
    }

    /** The send of the event just taken off the queue failed: the relay
        returns. */
    method SendFailedEnd()
      requires QueueInv(delivered, consumed, pending) && consumed != []
      requires EndAfter(consumed[|consumed| - 1], false) == SendFailed
      requires !relayDone && !elClosed && ended == Running
      requires toBrowser != [] && toBrowser[0] == SessionStarted(meetingId)
      requires transcript.None? && metadata.status == Recording
      modifies this`relayDone, this`ended, this`exitAt
      ensures Valid() && ended == SendFailed && exitAt == |delivered|
    {
      relayDone := true;
      ended := SendFailed;
      exitAt := |delivered|;
    }

    /** After the browser loop: the final `connection.commit()` is issued
        only while the upstream connection has not closed. */
    method FinalCommit()
      requires Valid() && stopRequested
      modifies this`commitIssued
      ensures Valid()
      ensures commitIssued == (old(commitIssued) || !elClosed)
    {
      if !elClosed {
        commitIssued := true;
      }
    }

    /** The browser loop has ended (a browser still connected when the
        schedule runs out counts as a disconnect) and the final commit follows. */
    method EndBrowserLoop()
      requires Valid()
      modifies this`stopRequested, this`commitIssued
      ensures Valid() && stopRequested
      ensures commitIssued == (old(commitIssued) || !elClosed)
    {
      stopRequested := true;
      FinalCommit();
    }

    /** The relay did not finish within its grace period and is cancelled;
        events still queued are never handled. */
    method CancelRelay()
      requires Valid() && !relayDone
      modifies this`relayDone, this`ended
      ensures Valid() && relayDone && ended == Cancelled
    {
      relayDone := true;
      ended := Cancelled;
    }

    /** After the drain: a relay still running is cancelled, then the
        `finally` block runs. */
    method CloseOut(elapsed: real)
      requires Valid() && stopRequested && elapsed >= 0.0 && !closeIssued
      requires metadata.status == Recording
      modifies this`relayDone, this`ended, this`closeIssued, this`transcript, this`metadata
      ensures Valid() && relayDone
      ensures ended == if old(ended) == Running then Cancelled else old(ended)
      ensures closeIssued == !elClosed
      ensures transcript == Some(segments)
      ensures metadata == old(metadata).(status := Completed, duration := elapsed.Floor, segmentCount := Some(|segments|))
    {
      if !relayDone {
        CancelRelay();
      }
      Finalize(elapsed);
    }

    /** The `finally` block, `elapsed` seconds after the connection was set
        up: the upstream connection is closed unless it already closed, the
        transcript is written, and the metadata is completed with the
        truncated duration and the segment count. */
    method Finalize(elapsed: real)
      requires Valid() && stopRequested && relayDone && elapsed >= 0.0
      requires metadata.status == Recording
      modifies this`closeIssued, this`transcript, this`metadata
      ensures Valid()
      ensures closeIssued == (old(closeIssued) || !elClosed)
      ensures transcript == Some(segments)
      ensures metadata == old(metadata).(status := Completed, duration := elapsed.Floor, segmentCount := Some(|segments|))
      ensures metadata.duration as real <= elapsed < metadata.duration as real + 1.0
    {
      if !elClosed {
        closeIssued := true;
      }
      var duration := elapsed.Floor;
      transcript := Some(segments);
      metadata := metadata.(status := Completed, duration := duration, segmentCount := Some(|segments|));
    }
  }

  /** One thing the event loop runs next: a browser frame read by the
      browser loop (with the outcome of its upstream send), an SDK callback,
      or a relay turn (with the outcome of its browser send and the clock
      reading used as a segment's timestamp). */
  datatype Step =
    | FromBrowser(msg: Inbound, sendOk: bool)
    | FromUpstream(event: UpstreamEvent)
    | Relay(sendOk: bool, stamp: string)

  /** The events the SDK delivers during a schedule. */
  function Events(steps: seq<Step>): (r: seq<UpstreamEvent>)
    ensures |r| <= |steps|
  {
    if steps == [] then []
    else
      var last := steps[|steps| - 1];
      Events(steps[..|steps| - 1]) + (if last.FromUpstream? then [last.event] else [])
  }

  /** The relay turns of a schedule; a step delivers an event or is a
      relay turn, never both. */
  function CountRelays(steps: seq<Step>): (r: nat)
    ensures r + |Events(steps)| <= |steps|
  {
    if steps == [] then 0
    else CountRelays(steps[..|steps| - 1]) + (if steps[|steps| - 1].Relay? then 1 else 0)
  }

  /** Whether the browser loop has ended after a schedule, given whether it
      had ended before it (`stopped`). */
  function BrowserStopped(steps: seq<Step>, stopped: bool): (r: bool)
    ensures stopped ==> r
  {
    if steps == [] then stopped
    else
      var last := steps[|steps| - 1];
      BrowserStopped(steps[..|steps| - 1], stopped) || (last.FromBrowser? && BrowserEnds(last.msg, last.sendOk))
  }

  /** The audio the browser loop relays upstream during a schedule: that of
      each browser frame it reads before it ends. */
  function Audio(steps: seq<Step>, stopped: bool): (r: seq<string>)
    ensures |r| <= |steps|
    ensures stopped ==> r == []
  {
    if steps == [] then []
    else
      var prev, last := steps[..|steps| - 1], steps[|steps| - 1];
      Audio(prev, stopped) + (if last.FromBrowser? && !BrowserStopped(prev, stopped) then BrowserAudio(last.msg, last.sendOk) else [])
  }

  /** Every browser send made on a relay turn of the schedule succeeds. */
  ghost predicate SendsSucceed(steps: seq<Step>) {
    forall k :: 0 <= k < |steps| && steps[k].Relay? ==> steps[k].sendOk
  }

  lemma {:induction false} EventsAppend(a: seq<Step>, b: seq<Step>)
    ensures Events(a + b) == Events(a) + Events(b)
    decreases |b|
  {
    if b == [] {
      assert a + b == a;
    } else {
      var b' := b[..|b| - 1];
      assert (a + b)[..|a + b| - 1] == a + b';
      EventsAppend(a, b');
    }
  }

  /** A schedule one step longer has that step's event, if it has one,
      and one more relay turn, if it is one. */
  lemma PrefixStep(steps: seq<Step>, i: nat)
    requires i < |steps|
    ensures Events(steps[..i + 1]) == Events(steps[..i]) + if steps[i].FromUpstream? then [steps[i].event] else []
    ensures CountRelays(steps[..i + 1]) == CountRelays(steps[..i]) + if steps[i].Relay? then 1 else 0
  {
    var prefix := steps[..i + 1];
    assert prefix[..|prefix| - 1] == steps[..i];
  }

  /** One more step of a schedule ends the browser loop if it was a frame
      that ends it, and relays that frame's audio if the loop still ran. */
  lemma BrowserStep(steps: seq<Step>, i: nat, stopped: bool)
    requires i < |steps|
    ensures BrowserStopped(steps[..i + 1], stopped) ==
              (BrowserStopped(steps[..i], stopped) || (steps[i].FromBrowser? && BrowserEnds(steps[i].msg, steps[i].sendOk)))
    ensures Audio(steps[..i + 1], stopped) == Audio(steps[..i], stopped) +
              if steps[i].FromBrowser? && !BrowserStopped(steps[..i], stopped) then BrowserAudio(steps[i].msg, steps[i].sendOk) else []
  {
    var prefix := steps[..i + 1];
    assert prefix[..|prefix| - 1] == steps[..i];
  }

  /** Events delivered during the live schedule and then during the drain
      are the events of the two schedules run back to back. */
  lemma DeliveredInOrder(afterLive: seq<UpstreamEvent>, afterDrain: seq<UpstreamEvent>, live: seq<Step>, drain: seq<Step>)
    requires afterLive == [] + Events(live) && afterDrain == afterLive + Events(drain)
    ensures afterDrain == Events(live + drain)
  {
    assert afterLive == Events(live);
    EventsAppend(live, drain);
  }

  /** What the handler leaves behind: the messages sent to the browser, the
      audio relayed upstream, whether it issued the final commit and the
      close itself, and the meeting's metadata and transcript (None when
      not written). */
  datatype Outcome = Outcome(
    replies: seq<Outbound>,
    audio: seq<string>,
    commitIssued: bool,
    closeIssued: bool,
    metadata: Option<Metadata>,
    transcript: Option<seq<Segment>>)

  /** The transcript is what the relay collected from the first `n`
      delivered events, and the handler closed the connection itself
      exactly when none of those was a close. */
  ghost predicate CollectedFrom(events: seq<UpstreamEvent>, n: nat, transcript: seq<Segment>, closeIssued: bool) {
    && n <= |events|
    && Texts(transcript) == CommittedTexts(events[..n])
    && (closeIssued <==> Close !in events[..n])
  }

  /** Whatever the schedule, the segments are what the relay collected
      from the delivered events it handled, which are a prefix of them. */
  lemma HandledPrefix(delivered: seq<UpstreamEvent>, consumed: seq<UpstreamEvent>, pending: seq<UpstreamEvent>,
                      segments: seq<Segment>, elClosed: bool, closeIssued: bool)
    requires QueueInv(delivered, consumed, pending) && CollectInv(consumed, segments, elClosed)
    requires closeIssued <==> !elClosed
    ensures CollectedFrom(delivered, |consumed|, segments, closeIssued)
  {
  }

  /** How a run of the handler on the `live` and `drain` schedules run back
      to back accounts for its transcript. The relay ended as `end` after
      handling the first `handled` delivered events, whose committed texts
      are the transcript. It stopped at the first close it handled, and the
      handler closed the connection itself exactly when there was none.
      Unless it was cancelled, it returned on relay turn `exitStep` of the
      schedules, not having handled events delivered after that step: after
      a failed send, that turn's send failed and the last event handled had
      something to send; through the idle exit, it had handled every event
      delivered by then. A cancelled relay had handled at least one event
      per relay turn of the drain. */
  ghost predicate RelayAccount(live: seq<Step>, drain: seq<Step>, end: RelayEnd, handled: nat, exitStep: nat,
                               transcript: seq<Segment>, closeIssued: bool)
  {
    var all, events := live + drain, Events(live + drain);
    && CollectedFrom(events, handled, transcript, closeIssued)
    && end != Running
    && (closeIssued <==> end != UpstreamClosed)
    && (Close in events[..handled] ==> events[handled - 1] == Close)
    && (end == SendFailed ==> 0 < handled && EndAfter(events[handled - 1], false) == SendFailed)
    && (end != Cancelled ==>
          && 0 < exitStep <= |all| && all[exitStep - 1].Relay?
          && handled <= |Events(all[..exitStep])|
          && (end == SendFailed ==> !all[exitStep - 1].sendOk)
          && (end == IdleExit ==> handled == |Events(all[..exitStep])|))
    && (end == Cancelled ==> CountRelays(drain) <= handled)
  }

  /** A run in which the upstream never closes, every browser send of the
      relay succeeds, and the drain has more relay turns than there are
      events ends through the idle exit, having handled every event
      delivered before it. */
  lemma IdleExitWhenDrained(live: seq<Step>, drain: seq<Step>, end: RelayEnd, handled: nat, exitStep: nat,
                            transcript: seq<Segment>, closeIssued: bool)
    requires RelayAccount(live, drain, end, handled, exitStep, transcript, closeIssued)
    requires Close !in Events(live + drain) && SendsSucceed(live + drain)
    requires CountRelays(drain) > |Events(live + drain)|
    ensures end == IdleExit && handled == |Events((live + drain)[..exitStep])|
  {
    var events := Events(live + drain);
    assert Close !in events[..handled];
  }

  /** Where the relay's own return falls in the two schedules run back to
      back: at its step in the live schedule, or `|live|` steps further on
      when it returned during the drain. */
  lemma ExitStep(live: seq<Step>, drain: seq<Step>, exitAt: nat, failed: bool,
                 inLive: bool, liveExit: nat, ended: bool, drainExit: nat)
    returns (exitStep: nat)
    requires inLive ==> && ended && 0 < liveExit <= |live| && live[liveExit - 1].Relay?
                        && exitAt == |Events(live[..liveExit])| && (failed ==> !live[liveExit - 1].sendOk)
    requires ended && !inLive ==> && 0 < drainExit <= |drain| && drain[drainExit - 1].Relay?
                                  && exitAt == |Events(live)| + |Events(drain[..drainExit])|
                                  && (failed ==> !drain[drainExit - 1].sendOk)
    ensures ended ==> && 0 < exitStep <= |live + drain| && (live + drain)[exitStep - 1].Relay?
                      && exitAt == |Events((live + drain)[..exitStep])|
                      && (failed ==> !(live + drain)[exitStep - 1].sendOk)
    ensures inLive ==> exitStep <= |live|
    ensures ended && !inLive ==> exitStep > |live|
  {
    if inLive {
      exitStep := liveExit;
      assert (live + drain)[..exitStep] == live[..liveExit];
    } else if ended {
      exitStep := |live| + drainExit;
      assert (live + drain)[..exitStep] == live + drain[..drainExit];
      EventsAppend(live, drain[..drainExit]);
    } else {
      exitStep := 0;
    }
  }

  /** Applies one scheduled step to the session. Browser frames after the
      browser loop ended and relay turns after the relay ended do nothing. */
  method Apply(s: Session, step: Step)
    requires s.Valid() && s.metadata.status == Recording
    requires CollectInv(s.consumed, s.segments, s.elClosed) && ReplyInv(s.toBrowser, s.meetingId, s.consumed, s.ended)
    modifies s`stopRequested, s`toUpstream, s`pending, s`delivered, s`consumed, s`segments, s`toBrowser, s`elClosed, s`relayDone
    modifies s`ended, s`exitAt
    ensures s.Valid() && CollectInv(s.consumed, s.segments, s.elClosed) && ReplyInv(s.toBrowser, s.meetingId, s.consumed, s.ended)
    ensures step.FromUpstream? ==> s.delivered == old(s.delivered) + [step.event]
    ensures !step.FromUpstream? ==> s.delivered == old(s.delivered)
    ensures s.stopRequested == (old(s.stopRequested) || (step.FromBrowser? && BrowserEnds(step.msg, step.sendOk)))
    ensures s.toUpstream == old(s.toUpstream) +
              if step.FromBrowser? && !old(s.stopRequested) then BrowserAudio(step.msg, step.sendOk) else []
    ensures |old(s.consumed)| <= |s.consumed|
    ensures old(s.ended) != Running ==> s.ended == old(s.ended) && s.exitAt == old(s.exitAt)
    ensures old(s.ended) == Running && s.ended != Running ==>
              && step.Relay? && s.ended != Cancelled && s.exitAt == |s.delivered|
              && (s.ended == SendFailed ==> !step.sendOk)
    ensures old(s.stopRequested) && step.Relay? && s.ended == Running ==> |s.consumed| == |old(s.consumed)| + 1
  {
    match step {
      case FromBrowser(msg, sendOk) =>
        ApplyBrowser(s, msg, sendOk);
      case FromUpstream(e) =>
        s.Deliver(e);
      case Relay(sendOk, stamp) =>
        ApplyRelay(s, sendOk, stamp);
    }
  }

  /** A browser frame in a schedule: read by `browser_to_elevenlabs` while
      that loop runs, and never read once it has ended. */
  method ApplyBrowser(s: Session, msg: Inbound, sendOk: bool)
    requires s.Valid()
    modifies s`stopRequested, s`toUpstream
    ensures s.Valid()
    ensures s.stopRequested == (old(s.stopRequested) || BrowserEnds(msg, sendOk))
    ensures s.toUpstream == old(s.toUpstream) + if old(s.stopRequested) then [] else BrowserAudio(msg, sendOk)
  {
    if !s.stopRequested {
      s.BrowserReceive(msg, sendOk);
    }
  }

  /** A scheduled relay turn, which does nothing once the relay has ended.
      Once a stop was requested, a turn on which the relay goes on takes
      one event off the queue. */
  method ApplyRelay(s: Session, sendOk: bool, stamp: string)
    requires s.Valid() && s.metadata.status == Recording
    requires CollectInv(s.consumed, s.segments, s.elClosed) && ReplyInv(s.toBrowser, s.meetingId, s.consumed, s.ended)
    modifies s`pending, s`consumed, s`segments, s`toBrowser, s`elClosed, s`relayDone, s`ended, s`exitAt
    ensures s.Valid() && CollectInv(s.consumed, s.segments, s.elClosed) && ReplyInv(s.toBrowser, s.meetingId, s.consumed, s.ended)
    ensures |old(s.consumed)| <= |s.consumed|
    ensures old(s.ended) != Running ==> s.ended == old(s.ended) && s.exitAt == old(s.exitAt)
    ensures old(s.ended) == Running && s.ended != Running ==>
              s.ended != Cancelled && s.exitAt == |s.delivered| && (s.ended == SendFailed ==> !sendOk)
    ensures s.stopRequested && s.ended == Running ==> |s.consumed| == |old(s.consumed)| + 1
  {
    if !s.relayDone {
      s.RelayTurn(sendOk, stamp);
    }
  }

  /** What the driver follows of a session: the events delivered, whether
      the browser loop has ended, how many events the relay has handled,
      how the relay stands and how many events had been delivered when it
      returned by itself, and the audio relayed upstream. */
  datatype Snapshot = Snapshot(delivered: seq<UpstreamEvent>, stopped: bool, handled: nat,
                               ended: RelayEnd, exitAt: nat, audio: seq<string>)

  /** How one scheduled step moves a snapshot from `p` to `q`: only an SDK
      callback delivers an event; a frame read while the browser loop runs
      may end it and relays its audio; the relay never gives events back;
      once ended it stays as it ended; only a relay turn ends it by itself,
      never as a cancellation, recording the events delivered so far; and
      after a stop, a turn on which the relay goes on handles one event. */
  ghost predicate Stepped(p: Snapshot, q: Snapshot, step: Step) {
    && q.delivered == p.delivered + (if step.FromUpstream? then [step.event] else [])
    && q.stopped == (p.stopped || (step.FromBrowser? && BrowserEnds(step.msg, step.sendOk)))
    && q.audio == p.audio + (if step.FromBrowser? && !p.stopped then BrowserAudio(step.msg, step.sendOk) else [])
    && p.handled <= q.handled
    && (p.ended != Running ==> q.ended == p.ended && q.exitAt == p.exitAt)
    && (p.ended == Running && q.ended != Running ==>
          && step.Relay? && q.ended != Cancelled && q.exitAt == |q.delivered|
          && (q.ended == SendFailed ==> !step.sendOk))
    && (p.stopped && step.Relay? && q.ended == Running ==> q.handled == p.handled + 1)
  }

  /** What the first `i` steps of a schedule did outside the relay, run
      from `start` to `now`: the events delivered are those of the steps;
      the browser loop has ended if it had before them or one of them ended
      it, and the audio relayed is that of the frames it read. */
  ghost predicate Fed(now: Snapshot, steps: seq<Step>, i: nat, start: Snapshot)
    requires i <= |steps|
  {
    && now.delivered == start.delivered + Events(steps[..i])
    && now.stopped == BrowserStopped(steps[..i], start.stopped)
    && now.audio == start.audio + Audio(steps[..i], start.stopped)
  }

  /** The first `i` steps of a schedule have run from `start` to `now`: they
      fed the session as `Fed` says; the relay has not given events back; a
      relay that ended by itself during these steps did so on relay turn
      `exitStep`, having seen the events delivered by then; and while it
      still runs after a stop, every relay turn took an event off the
      queue. */
  ghost predicate Ran(now: Snapshot, steps: seq<Step>, i: nat, start: Snapshot, exitStep: nat)
    requires i <= |steps|
  {
    && Fed(now, steps, i, start)
    && start.handled <= now.handled
    && (start.stopped && now.ended == Running ==> now.handled >= start.handled + CountRelays(steps[..i]))
    && (start.ended != Running ==> now.ended == start.ended && now.exitAt == start.exitAt)
    && (start.ended == Running && now.ended != Running ==>
          && 0 < exitStep <= i && steps[exitStep - 1].Relay? && now.ended != Cancelled
          && now.exitAt == |start.delivered| + |Events(steps[..exitStep])|
          && (now.ended == SendFailed ==> !steps[exitStep - 1].sendOk))
  }

  /** No step of a schedule has run yet. */
  lemma RanNothing(start: Snapshot, steps: seq<Step>)
    ensures Ran(start, steps, 0, start, 0)
  {
    assert steps[..0] == [];
  }

  /** One more step keeps `Fed`. */
  lemma FedStep(p: Snapshot, q: Snapshot, steps: seq<Step>, i: nat, start: Snapshot)
    requires i < |steps| && Fed(p, steps, i, start) && Stepped(p, q, steps[i])
    ensures Fed(q, steps, i + 1, start)
  {
    PrefixStep(steps, i);
    BrowserStep(steps, i, start.stopped);
  }

  /** One more step keeps `Ran`; a relay turn on which the relay returns
      by itself becomes `exitStep`. */
  lemma RanStep(p: Snapshot, q: Snapshot, steps: seq<Step>, i: nat, start: Snapshot, exitStep: nat)
    returns (exitStep': nat)
    requires i < |steps| && Ran(p, steps, i, start, exitStep) && Stepped(p, q, steps[i])
    ensures Ran(q, steps, i + 1, start, exitStep')
  {
    FedStep(p, q, steps, i, start);
    PrefixStep(steps, i);
    exitStep' := if p.ended == Running && q.ended != Running then i + 1 else exitStep;
  }


  /** Step `i` of a schedule whose first `i` steps have run: `Ran` holds
      for one more step. */
  method ApplyAt(s: Session, steps: seq<Step>, i: nat, ghost start: Snapshot, ghost exitStep: nat)
    returns (ghost exitStep': nat)
    requires i < |steps| && s.Valid() && s.metadata.status == Recording
    requires CollectInv(s.consumed, s.segments, s.elClosed) && ReplyInv(s.toBrowser, s.meetingId, s.consumed, s.ended)
    requires Ran(s.Snap(), steps, i, start, exitStep)
    modifies s`stopRequested, s`toUpstream, s`pending, s`delivered, s`consumed, s`segments, s`toBrowser, s`elClosed, s`relayDone
    modifies s`ended, s`exitAt
    ensures s.Valid() && CollectInv(s.consumed, s.segments, s.elClosed) && ReplyInv(s.toBrowser, s.meetingId, s.consumed, s.ended)
    ensures Ran(s.Snap(), steps, i + 1, start, exitStep')
  {
    ghost var p := s.Snap();
    Apply(s, steps[i]);
    exitStep' := RanStep(p, s.Snap(), steps, i, start, exitStep);
  }

  /** Runs the steps of a schedule from the `i`th on. */
  method RunFrom(s: Session, steps: seq<Step>, i: nat, ghost start: Snapshot, ghost exitStep: nat)
    returns (ghost exitStep': nat)
    requires i <= |steps| && s.Sound() && Ran(s.Snap(), steps, i, start, exitStep)
    modifies s`stopRequested, s`toUpstream, s`pending, s`delivered, s`consumed, s`segments, s`toBrowser, s`elClosed, s`relayDone
    modifies s`ended, s`exitAt
    ensures s.Sound() && Ran(s.Snap(), steps, |steps|, start, exitStep')
    decreases |steps| - i
  {
    if i == |steps| {
      exitStep' := exitStep;
    } else {
      var next := ApplyAt(s, steps, i, start, exitStep);
      exitStep' := RunFrom(s, steps, i + 1, start, next);
    }
  }

  /** Runs a schedule on the session, step by step, as `Ran` describes:
      when the relay returns by itself during the schedule, `exitStep` is
      the number of steps run up to and including that relay turn. */
  method RunSchedule(s: Session, steps: seq<Step>) returns (ghost exitStep: nat)
    requires s.Valid() && s.metadata.status == Recording
    requires CollectInv(s.consumed, s.segments, s.elClosed) && ReplyInv(s.toBrowser, s.meetingId, s.consumed, s.ended)
    modifies s`stopRequested, s`toUpstream, s`pending, s`delivered, s`consumed, s`segments, s`toBrowser, s`elClosed, s`relayDone
    modifies s`ended, s`exitAt
    ensures s.Valid() && CollectInv(s.consumed, s.segments, s.elClosed) && ReplyInv(s.toBrowser, s.meetingId, s.consumed, s.ended)
    ensures s.delivered == old(s.delivered) + Events(steps)
    ensures s.stopRequested == BrowserStopped(steps, old(s.stopRequested))
    ensures s.toUpstream == old(s.toUpstream) + Audio(steps, old(s.stopRequested))
    ensures old(s.stopRequested) && s.ended == Running ==> |s.consumed| >= |old(s.consumed)| + CountRelays(steps)
    ensures old(s.ended) != Running ==> s.ended == old(s.ended) && s.exitAt == old(s.exitAt)
    ensures old(s.ended) == Running && s.ended != Running ==>
              && 0 < exitStep <= |steps| && steps[exitStep - 1].Relay? && s.ended != Cancelled
              && s.exitAt == |old(s.delivered)| + |Events(steps[..exitStep])|
              && (s.ended == SendFailed ==> !steps[exitStep - 1].sendOk)
  {
    ghost var start := s.Snap();
    RanNothing(start, steps);
    exitStep := RunFrom(s, steps, 0, start, 0);
    assert steps[..|steps|] == steps;
  }

  /** `ws_transcribe` for a first frame, a meeting id and creation time,
      whether the `session_started` reply reaches the browser
      (`startReplyOk`), the outcome of the upstream connect (an error text,
      or None on success), the schedule while the browser is connected
      (`live`), the schedule during the final drain (`drain`), and the
      seconds elapsed at the end. A browser loop still reading when `live`
      runs out is ended as by a disconnect; a relay still running when
      `drain` runs out is cancelled. When the meeting runs, how the relay
      ended and what it handled are returned as `end`, `handled` and
      `exitStep`, as in `RelayAccount`. */
  method WsTranscribe(first: Inbound, meetingId: string, createdAt: string, startReplyOk: bool,
                      connectError: Option<string>, live: seq<Step>, drain: seq<Step>, elapsed: real)
    returns (out: Outcome, ghost end: RelayEnd, ghost handled: nat, ghost exitStep: nat)
    requires elapsed >= 0.0
    ensures !DecideStart(first).Begin? ==> out.metadata.None? && out.transcript.None? && out.audio == [] && !out.commitIssued
    ensures DecideStart(first).Reject? ==> out.replies == [ErrorOut(ExpectedStart)]
    ensures DecideStart(first).Abandon? || DecideStart(first).Raise? ==> out.replies == []
    ensures DecideStart(first).Begin? && !startReplyOk ==>
              && out.replies == []
              && out.metadata == Some(Metadata(DecideStart(first).title, createdAt, Recording, 0, None))
              && out.transcript.None? && out.audio == [] && !out.commitIssued
    ensures DecideStart(first).Begin? && startReplyOk && connectError.Some? ==>
              && out.replies == [SessionStarted(meetingId), ErrorOut(ConnectFailedPrefix + connectError.value)]
              && out.metadata == Some(Metadata(DecideStart(first).title, createdAt, Recording, 0, None))
              && out.transcript.None? && out.audio == [] && !out.commitIssued
    ensures DecideStart(first).Begin? && startReplyOk && connectError.None? ==>
              && |out.replies| > 0 && out.replies[0] == SessionStarted(meetingId)
              && out.transcript.Some?
              && out.metadata == Some(Metadata(DecideStart(first).title, createdAt, Completed,
                                               elapsed.Floor, Some(|out.transcript.value|)))
              && RelayAccount(live, drain, end, handled, exitStep, out.transcript.value, out.closeIssued)
              && out.replies == [SessionStarted(meetingId)] + Forwarded(Events(live + drain)[..handled], end)
              && out.audio == Audio(live, false)
              && (out.commitIssued <==> !(end == UpstreamClosed && exitStep <= |live|))
  {
    end, handled, exitStep := Running, 0, 0;
    var decision := DecideStart(first);
    if !decision.Begin? {
      if decision.Reject? {
        return Outcome([ErrorOut(ExpectedStart)], [], false, false, None, None), end, handled, exitStep;
      }
      return Outcome([], [], false, false, None, None), end, handled, exitStep;
    }
    var meta := Metadata(decision.title, createdAt, Recording, 0, None);
    if !startReplyOk {
      return Outcome([], [], false, false, Some(meta), None), end, handled, exitStep;
    }
    if connectError.Some? {
      return Outcome([SessionStarted(meetingId), ErrorOut(ConnectFailedPrefix + connectError.value)],
                     [], false, false, Some(meta), None), end, handled, exitStep;
    }
    out, end, handled, exitStep := RunMeeting(meetingId, decision.title, createdAt, live, drain, elapsed);
  }

  /** The meeting is opened and both loops run on the live schedule. */
  method RunLive(meetingId: string, title: string, createdAt: string, live: seq<Step>)
    returns (s: Session, ghost exitStep: nat)
    ensures fresh(s) && s.Valid() && CollectInv(s.consumed, s.segments, s.elClosed)
    ensures ReplyInv(s.toBrowser, s.meetingId, s.consumed, s.ended)
    ensures s.meetingId == meetingId && s.metadata == Metadata(title, createdAt, Recording, 0, None)
    ensures s.delivered == [] + Events(live)
    ensures s.toUpstream == Audio(live, false)
    ensures !s.closeIssued && !s.commitIssued
    ensures s.ended != Running ==>
              && 0 < exitStep <= |live| && live[exitStep - 1].Relay? && s.ended != Cancelled
              && s.exitAt == |Events(live[..exitStep])|
              && (s.ended == SendFailed ==> !live[exitStep - 1].sendOk)
  {
    s := new Session(meetingId, title, createdAt);
    exitStep := RunSchedule(s, live);
  }

  /** The browser loop has ended; the final commit is issued and the relay
      drains the queue on the drain schedule. A relay still running after
      it has taken an event off the queue on every relay turn. */
  method RunDrain(s: Session, drain: seq<Step>) returns (ghost exitStep: nat)
    requires s.Valid() && s.metadata.status == Recording
    requires CollectInv(s.consumed, s.segments, s.elClosed) && ReplyInv(s.toBrowser, s.meetingId, s.consumed, s.ended)
    modifies s`stopRequested, s`commitIssued, s`toUpstream, s`pending, s`delivered, s`consumed, s`segments, s`toBrowser, s`elClosed, s`relayDone
    modifies s`ended, s`exitAt
    ensures s.Valid() && CollectInv(s.consumed, s.segments, s.elClosed) && ReplyInv(s.toBrowser, s.meetingId, s.consumed, s.ended)
    ensures s.delivered == old(s.delivered) + Events(drain)
    ensures s.stopRequested && s.toUpstream == old(s.toUpstream)
    ensures s.commitIssued == (old(s.commitIssued) || !old(s.elClosed))
    ensures s.ended == Running ==> |s.consumed| >= CountRelays(drain)
    ensures old(s.ended) != Running ==> s.ended == old(s.ended) && s.exitAt == old(s.exitAt)
    ensures old(s.ended) == Running && s.ended != Running ==>
              && 0 < exitStep <= |drain| && drain[exitStep - 1].Relay? && s.ended != Cancelled
              && s.exitAt == |old(s.delivered)| + |Events(drain[..exitStep])|
              && (s.ended == SendFailed ==> !drain[exitStep - 1].sendOk)
  {
    s.EndBrowserLoop();
    exitStep := RunSchedule(s, drain);
  }

  /** `ws_transcribe` from the moment the upstream connection is up: both
      loops run on the schedules, the final commit and drain follow, and the
      meeting is finalised. How the relay ended, how many delivered events
      it handled and on which step it returned are `end`, `handled` and
      `exitStep`; the transcript, the replies, the audio and the final
      commit are accounted for by them. */
  method RunMeeting(meetingId: string, title: string, createdAt: string,
                    live: seq<Step>, drain: seq<Step>, elapsed: real)
    returns (out: Outcome, ghost end: RelayEnd, ghost handled: nat, ghost exitStep: nat)
    requires elapsed >= 0.0
    ensures |out.replies| > 0 && out.replies[0] == SessionStarted(meetingId)
    ensures out.transcript.Some?
    ensures out.metadata == Some(Metadata(title, createdAt, Completed, elapsed.Floor, Some(|out.transcript.value|)))
    ensures RelayAccount(live, drain, end, handled, exitStep, out.transcript.value, out.closeIssued)
    ensures out.replies == [SessionStarted(meetingId)] + Forwarded(Events(live + drain)[..handled], end)
    ensures out.audio == Audio(live, false)
    ensures out.commitIssued <==> !(end == UpstreamClosed && exitStep <= |live|)
  {
    var s;
    s, end, handled, exitStep := RunLoops(meetingId, title, createdAt, live, drain);
    out := Conclude(s, elapsed);
  }

  /** Both loops on the live schedule, then the final commit and the drain:
      the session is left to the `finally` block with its replies, audio,
      final commit and segments accounted for by how the relay ended. */
  method RunLoops(meetingId: string, title: string, createdAt: string, live: seq<Step>, drain: seq<Step>)
    returns (s: Session, ghost end: RelayEnd, ghost handled: nat, ghost exitStep: nat)
    ensures fresh(s) && s.Valid() && s.stopRequested && !s.closeIssued
    ensures s.metadata == Metadata(title, createdAt, Recording, 0, None)
    ensures RelayAccount(live, drain, end, handled, exitStep, s.segments, !s.elClosed)
    ensures s.toBrowser == [SessionStarted(meetingId)] + Forwarded(Events(live + drain)[..handled], end)
    ensures s.toUpstream == Audio(live, false)
    ensures s.commitIssued <==> !(end == UpstreamClosed && exitStep <= |live|)
  {
    ghost var liveExit;
    s, liveExit := RunLive(meetingId, title, createdAt, live);
    ghost var afterLive, endLive := s.delivered, s.ended;
    ghost var drainExit := RunDrain(s, drain);
    DeliveredInOrder(afterLive, s.delivered, live, drain);
    exitStep := ExitStep(live, drain, s.exitAt, s.ended == SendFailed, endLive != Running, liveExit,
                         s.ended != Running, drainExit);
    handled := |s.consumed|;
    end := if s.ended == Running then Cancelled else s.ended;
    AccountFromRun(s, live, drain, end, exitStep);
    CommitAccount(live, endLive, s.ended, end, exitStep, s.commitIssued);
  }

  /** The `finally` block at the end of the handler, and what the handler
      leaves behind: the replies, audio and final commit as they stood, the
      close issued exactly when the upstream had not closed, and the
      completed metadata and the transcript of the collected segments. */
  method Conclude(s: Session, elapsed: real) returns (out: Outcome)
    requires s.Valid() && s.stopRequested && elapsed >= 0.0 && !s.closeIssued
    requires s.metadata.status == Recording
    modifies s`relayDone, s`ended, s`closeIssued, s`transcript, s`metadata
    ensures out == Outcome(old(s.toBrowser), old(s.toUpstream), old(s.commitIssued), !old(s.elClosed),
                           Some(old(s.metadata).(status := Completed, duration := elapsed.Floor,
                                                 segmentCount := Some(|old(s.segments)|))),
                           Some(old(s.segments)))
  {
    s.CloseOut(elapsed);
    out := Outcome(s.toBrowser, s.toUpstream, s.commitIssued, s.closeIssued, Some(s.metadata), s.transcript);
  }

  /** The final commit is issued exactly when the upstream had not closed
      by the end of the live schedule, which is when the relay did not
      return after a close on a live step. */
  lemma CommitAccount(live: seq<Step>, endLive: RelayEnd, endDrain: RelayEnd, end: RelayEnd, exitStep: nat,
                      commitIssued: bool)
    requires commitIssued == (endLive != UpstreamClosed)
    requires endLive != Running ==> endDrain == endLive && exitStep <= |live|
    requires endLive == Running && endDrain != Running ==> exitStep > |live|
    requires end == if endDrain == Running then Cancelled else endDrain
    ensures commitIssued <==> !(end == UpstreamClosed && exitStep <= |live|)
  {
  }

  /** The state the drain leaves the session in (its queue, its segments,
      its replies and how the relay ended) adds up to `RelayAccount` and
      gives the replies as what the relay forwarded for the handled events. */
  lemma AccountFromRun(s: Session, live: seq<Step>, drain: seq<Step>, end: RelayEnd, exitStep: nat)
    requires s.Valid() && CollectInv(s.consumed, s.segments, s.elClosed)
    requires ReplyInv(s.toBrowser, s.meetingId, s.consumed, s.ended)
    requires s.delivered == Events(live + drain)
    requires s.ended != Cancelled && end == if s.ended == Running then Cancelled else s.ended
    requires s.ended == Running ==> |s.consumed| >= CountRelays(drain)
    requires s.ended != Running ==> && 0 < exitStep <= |live + drain| && (live + drain)[exitStep - 1].Relay?
                                    && s.exitAt == |Events((live + drain)[..exitStep])|
                                    && (s.ended == SendFailed ==> !(live + drain)[exitStep - 1].sendOk)
    ensures RelayAccount(live, drain, end, |s.consumed|, exitStep, s.segments, !s.elClosed)
    ensures s.toBrowser == [SessionStarted(s.meetingId)] + Forwarded(Events(live + drain)[..|s.consumed|], end)
  {
    var delivered, consumed, pending, segments := s.delivered, s.consumed, s.pending, s.segments;
    var elClosed, endDrain, exitAt, closeIssued := s.elClosed, s.ended, s.exitAt, !s.elClosed;
    var all, handled := live + drain, |consumed|;
    assert delivered[..handled] == consumed;
    assert CollectedFrom(delivered, handled, segments, closeIssued) by {
      HandledPrefix(delivered, consumed, pending, segments, elClosed, closeIssued);
    }
    var events := Events(live + drain);
    assert A1: Close in events[..handled] ==> events[handled - 1] == Close;
    assert A2: end == SendFailed ==> 0 < handled && EndAfter(events[handled - 1], false) == SendFailed;
    assert A3: end != Cancelled ==>
          && 0 < exitStep <= |all| && all[exitStep - 1].Relay?
          && handled <= |Events(all[..exitStep])|
          && (end == SendFailed ==> !all[exitStep - 1].sendOk)
          && (end == IdleExit ==> handled == |Events(all[..exitStep])|);
    assert A4: end == Cancelled ==> CountRelays(drain) <= handled;
    assert A5: closeIssued <==> end != UpstreamClosed;
  }

  /** A meeting starts and two events arrive before the relay takes any. */
  method QueueTwo(meetingId: string, title: string, createdAt: string, e1: UpstreamEvent, e2: UpstreamEvent)
    returns (s: Session)
    ensures fresh(s) && s.Valid() && CollectInv(s.consumed, s.segments, s.elClosed)
    ensures ReplyInv(s.toBrowser, s.meetingId, s.consumed, s.ended)
    ensures s.pending == [e1, e2] && s.consumed == [] && s.segments == [] && s.toBrowser == [SessionStarted(meetingId)]
    ensures s.metadata == Metadata(title, createdAt, Recording, 0, None)
    ensures !s.stopRequested && !s.commitIssued && !s.closeIssued && !s.relayDone && !s.elClosed
  {
    s := new Session(meetingId, title, createdAt);
    s.Deliver(e1);
    s.Deliver(e2);
  }

  /** First half of the scenario below: two committed events arrive, then
      the browser disconnects and the final commit is issued. */
  method QueueTwoThenDisconnect(meetingId: string, title: string, createdAt: string,
                                e1: UpstreamEvent, e2: UpstreamEvent)
    returns (s: Session)
    ensures fresh(s) && s.Valid() && CollectInv(s.consumed, s.segments, s.elClosed)
    ensures ReplyInv(s.toBrowser, s.meetingId, s.consumed, s.ended)
    ensures s.pending == [e1, e2] && s.consumed == [] && s.segments == [] && s.toBrowser == [SessionStarted(meetingId)]
    ensures s.metadata == Metadata(title, createdAt, Recording, 0, None)
    ensures s.stopRequested && s.commitIssued && !s.closeIssued && !s.relayDone && !s.elClosed
  {
    s := QueueTwo(meetingId, title, createdAt, e1, e2);
    s.BrowserReceive(Disconnect, true);
    s.EndBrowserLoop();
  }

  /** The relay handles a queued committed event whose text is `a`: the
      browser gets `a` as committed text and `a` joins the segments. */
  method RelayCommit(s: Session, a: string, stamp: string)
    requires s.Valid() && CollectInv(s.consumed, s.segments, s.elClosed)
    requires ReplyInv(s.toBrowser, s.meetingId, s.consumed, s.ended)
    requires IsStripped(a) && a != ""
    requires s.pending != [] && s.pending[0] == Committed(Some(a))
    requires s.metadata.status == Recording && !s.relayDone
    modifies s`pending, s`consumed, s`segments, s`toBrowser, s`elClosed, s`relayDone, s`ended, s`exitAt
    ensures s.Valid() && CollectInv(s.consumed, s.segments, s.elClosed)
    ensures ReplyInv(s.toBrowser, s.meetingId, s.consumed, s.ended)
    ensures s.pending == old(s.pending)[1..] && s.segments == old(s.segments) + [Segment(a, stamp)]
    ensures s.toBrowser == old(s.toBrowser) + [CommittedOut(a)]
    ensures s.ended == Running && !s.relayDone && s.elClosed == old(s.elClosed)
  {
    assert EventText(Some(a)) == a by { StripStripped(a); }
    assert Contribution(Committed(Some(a)), stamp) == [Segment(a, stamp)];
    assert Reply(Committed(Some(a)), true) == [CommittedOut(a)];
    s.RelayNext(true, stamp);
  }

  /** The relay handles the last queued event, a committed text `b`, and
      then, finding the queue empty after the stop, takes its idle exit. */
  method RelayLastCommit(s: Session, b: string, stamp: string, stamp': string)
    requires s.Valid() && CollectInv(s.consumed, s.segments, s.elClosed)
    requires ReplyInv(s.toBrowser, s.meetingId, s.consumed, s.ended)
    requires IsStripped(b) && b != ""
    requires s.pending == [Committed(Some(b))]
    requires s.metadata.status == Recording && s.stopRequested && !s.relayDone
    modifies s`pending, s`consumed, s`segments, s`toBrowser, s`elClosed, s`relayDone, s`ended, s`exitAt
    ensures s.Valid() && s.ended == IdleExit && s.elClosed == old(s.elClosed)
    ensures s.segments == old(s.segments) + [Segment(b, stamp)]
    ensures s.toBrowser == old(s.toBrowser) + [CommittedOut(b)]
  {
    RelayCommit(s, b, stamp);
    s.RelayTurn(true, stamp');
  }

  /** Second half: the relay handles both queued commits and then, finding
      the queue empty after the stop, takes its idle exit. */
  method RelayTwoCommits(s: Session, a: string, b: string, stamp1: string, stamp2: string, stamp3: string)
    requires s.Valid() && CollectInv(s.consumed, s.segments, s.elClosed)
    requires ReplyInv(s.toBrowser, s.meetingId, s.consumed, s.ended)
    requires IsStripped(a) && IsStripped(b) && a != "" && b != ""
    requires s.pending == [Committed(Some(a)), Committed(Some(b))] && s.segments == [] && s.consumed == []
    requires s.metadata.status == Recording && s.stopRequested && !s.relayDone
    modifies s`pending, s`consumed, s`segments, s`toBrowser, s`elClosed, s`relayDone, s`ended, s`exitAt
    ensures s.Valid() && s.ended == IdleExit && s.elClosed == old(s.elClosed)
    ensures s.segments == [Segment(a, stamp1), Segment(b, stamp2)]
    ensures s.toBrowser == old(s.toBrowser) + [CommittedOut(a), CommittedOut(b)]
  {
    RelayCommit(s, a, stamp1);
    RelayLastCommit(s, b, stamp2, stamp3);
  }

  /** A browser that disconnects while two committed events are still
      queued: the final commit is issued, the relay drains both events and
      then takes its idle exit, and both segments are in the transcript of
      the completed meeting. */
  method DisconnectKeepsQueuedCommits(meetingId: string, title: string, createdAt: string,
                                      a: string, b: string, stamp1: string, stamp2: string, stamp3: string,
                                      elapsed: real)
    returns (out: Outcome)
    requires a != "" && IsStripped(a) && b != "" && IsStripped(b) && elapsed >= 0.0
    ensures out.transcript == Some([Segment(a, stamp1), Segment(b, stamp2)])
    ensures out.metadata == Some(Metadata(title, createdAt, Completed, elapsed.Floor, Some(2)))
    ensures out.replies == [SessionStarted(meetingId), CommittedOut(a), CommittedOut(b)]
    ensures out.commitIssued && out.closeIssued
  {
    var s := QueueTwoThenDisconnect(meetingId, title, createdAt, Committed(Some(a)), Committed(Some(b)));
    RelayTwoCommits(s, a, b, stamp1, stamp2, stamp3);
    out := Conclude(s, elapsed);
  }

  /** A schedule of relay turns alone delivers no event. */
  lemma {:induction false} RelaysDeliverNothing(steps: seq<Step>)
    requires forall k :: 0 <= k < |steps| ==> steps[k].Relay?
    ensures Events(steps) == []
    decreases |steps|
  {
    if steps != [] {
      RelaysDeliverNothing(steps[..|steps| - 1]);
    }
  }

  /** The live schedule of the disconnect scenario delivers its two events. */
  lemma DisconnectLive(live: seq<Step>, a: string, b: string)
    requires live == [FromUpstream(Committed(Some(a))), FromUpstream(Committed(Some(b))), FromBrowser(Disconnect, true)]
    ensures Events(live) == [Committed(Some(a)), Committed(Some(b))]
  {
    assert live[..0] == [];
    PrefixStep(live, 0);
    PrefixStep(live, 1);
    PrefixStep(live, 2);
    assert live[..3] == live;
  }

  /** Three relay turns count three, and no prefix of them delivers an event. */
  lemma ThreeRelays(drain: seq<Step>, stamp1: string, stamp2: string, stamp3: string)
    requires drain == [Relay(true, stamp1), Relay(true, stamp2), Relay(true, stamp3)]
    ensures CountRelays(drain) == 3
    ensures forall j :: 0 <= j <= |drain| ==> Events(drain[..j]) == []
  {
    assert drain[..0] == [];
    PrefixStep(drain, 0);
    PrefixStep(drain, 1);
    PrefixStep(drain, 2);
    assert drain[..3] == drain;
    forall j | 0 <= j <= |drain|
      ensures Events(drain[..j]) == []
    {
      RelaysDeliverNothing(drain[..j]);
    }
  }

  /** The schedules of the disconnect scenario run through the whole
      handler: two committed events arrive and the browser disconnects,
      then the drain has three relay turns whose sends succeed. Every
      relay turn comes after both events. */
  lemma DisconnectSchedule(live: seq<Step>, drain: seq<Step>, a: string, b: string,
                           stamp1: string, stamp2: string, stamp3: string)
    requires live == [FromUpstream(Committed(Some(a))), FromUpstream(Committed(Some(b))), FromBrowser(Disconnect, true)]
    requires drain == [Relay(true, stamp1), Relay(true, stamp2), Relay(true, stamp3)]
    ensures Events(live + drain) == [Committed(Some(a)), Committed(Some(b))]
    ensures CountRelays(drain) == 3 && SendsSucceed(live + drain)
    ensures forall k :: 0 < k <= |live + drain| && (live + drain)[k - 1].Relay? ==>
                          Events((live + drain)[..k]) == Events(live + drain)
  {
    DisconnectLive(live, a, b);
    ThreeRelays(drain, stamp1, stamp2, stamp3);
    assert drain[..|drain|] == drain;
    EventsAppend(live, drain);
    forall k | 0 < k <= |live + drain| && (live + drain)[k - 1].Relay?
      ensures Events((live + drain)[..k]) == Events(live + drain)
    {
      assert (live + drain)[..k] == live + drain[..k - 3];
      EventsAppend(live, drain[..k - 3]);
    }
  }

  /** Two committed texts are replied to in order. */
  lemma TwoCommittedReplies(a: string, b: string)
    requires EventText(Some(a)) == a && EventText(Some(b)) == b && a != "" && b != ""
    ensures Replies([Committed(Some(a)), Committed(Some(b))]) == [CommittedOut(a), CommittedOut(b)]
  {
    var events := [Committed(Some(a)), Committed(Some(b))];
    assert events[..1] == [events[0]] && events[..1][..0] == [];
    assert Replies(events[..1]) == [CommittedOut(a)];
  }

  /** The browser in the disconnect scenario sees both committed texts
      after `session_started`. */
  lemma DisconnectReplies(a: string, b: string, meetingId: string, replies: seq<Outbound>,
                          handled: seq<UpstreamEvent>, end: RelayEnd)
    requires EventText(Some(a)) == a && EventText(Some(b)) == b && a != "" && b != ""
    requires handled == [Committed(Some(a)), Committed(Some(b))] && end == IdleExit
    requires replies == [SessionStarted(meetingId)] + Forwarded(handled, end)
    ensures replies == [SessionStarted(meetingId), CommittedOut(a), CommittedOut(b)]
  {
    TwoCommittedReplies(a, b);
  }

  /** A browser that only disconnects relays no audio. */
  lemma DisconnectAudio(live: seq<Step>)
    requires |live| == 3 && live[0].FromUpstream? && live[1].FromUpstream? && live[2] == FromBrowser(Disconnect, true)
    ensures Audio(live, false) == []
  {
    assert live[..0] == [];
    BrowserStep(live, 0, false);
    BrowserStep(live, 1, false);
    BrowserStep(live, 2, false);
    assert live[..3] == live;
  }

  /** However its schedules interleave, the disconnect scenario ends in the
      relay's idle exit after it handled both events. */
  lemma DisconnectAccount(live: seq<Step>, drain: seq<Step>, a: string, b: string,
                          stamp1: string, stamp2: string, stamp3: string,
                          end: RelayEnd, handled: nat, exitStep: nat, transcript: seq<Segment>, closeIssued: bool)
    requires live == [FromUpstream(Committed(Some(a))), FromUpstream(Committed(Some(b))), FromBrowser(Disconnect, true)]
    requires drain == [Relay(true, stamp1), Relay(true, stamp2), Relay(true, stamp3)]
    requires RelayAccount(live, drain, end, handled, exitStep, transcript, closeIssued)
    ensures end == IdleExit && handled == 2
    ensures Events(live + drain)[..handled] == [Committed(Some(a)), Committed(Some(b))]
    ensures Texts(transcript) == CommittedTexts([Committed(Some(a)), Committed(Some(b))])
  {
    DisconnectSchedule(live, drain, a, b, stamp1, stamp2, stamp3);
    IdleExitWhenDrained(live, drain, end, handled, exitStep, transcript, closeIssued);
    assert Events(live + drain)[..2] == Events(live + drain);
  }

  /** The committed texts of the disconnect scenario are its two texts. */
  lemma DisconnectTexts(a: string, b: string)
    requires EventText(Some(a)) == a && EventText(Some(b)) == b && a != "" && b != ""
    ensures CommittedTexts([Committed(Some(a)), Committed(Some(b))]) == [a, b]
  {
    var events := [Committed(Some(a)), Committed(Some(b))];
    assert events[..1] == [events[0]] && events[..1][..0] == [];
    assert CommittedTexts(events[..1]) == [a];
  }

  /** The disconnect scenario through `WsTranscribe`: the browser starts a
      meeting, two committed texts arrive, the browser disconnects, and the
      drain gives the relay three turns. The relay takes its idle exit
      having handled both events, so the completed meeting's transcript
      holds both texts and the handler closes the connection itself. */
  method HandlerKeepsQueuedCommits(meetingId: string, title: string, createdAt: string,
                                   a: string, b: string, stamp1: string, stamp2: string, stamp3: string,
                                   elapsed: real)
    returns (out: Outcome)
    requires a != "" && IsStripped(a) && b != "" && IsStripped(b) && elapsed >= 0.0
    ensures out.transcript.Some? && Texts(out.transcript.value) == [a, b]
    ensures out.metadata == Some(Metadata(title, createdAt, Completed, elapsed.Floor, Some(2)))
    ensures out.replies == [SessionStarted(meetingId), CommittedOut(a), CommittedOut(b)]
    ensures out.audio == [] && out.commitIssued && out.closeIssued
  {
    var live := [FromUpstream(Committed(Some(a))), FromUpstream(Committed(Some(b))), FromBrowser(Disconnect, true)];
    var drain := [Relay(true, stamp1), Relay(true, stamp2), Relay(true, stamp3)];
    ghost var end, handled, exitStep;
    out, end, handled, exitStep :=
      WsTranscribe(Message(Some("start"), Some(title), None), meetingId, createdAt, true, None, live, drain, elapsed);
    DisconnectAccount(live, drain, a, b, stamp1, stamp2, stamp3, end, handled, exitStep, out.transcript.value, out.closeIssued);
    assert EventText(Some(a)) == a by { StripStripped(a); }
    assert EventText(Some(b)) == b by { StripStripped(b); }
    DisconnectTexts(a, b);
    DisconnectReplies(a, b, meetingId, out.replies, Events(live + drain)[..handled], end);
    DisconnectAudio(live);
  }
}
