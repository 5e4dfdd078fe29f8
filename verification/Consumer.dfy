/** One activation of the Gemini response consumer, cut at its suspension points. */
module Consumer {
  import opened Prelude
  import opened Session

  /** One function call requested by the model. */
  datatype ToolRequest = ToolRequest(name: string, callId: string)

  datatype Content = Content(
    audio: seq<Bytes>, said: string, heard: string, interrupted: bool, turnComplete: bool)

  datatype Response = Response(content: Option<Content>, toolCalls: Option<seq<ToolRequest>>)

  /** Where a running consumer is suspended. */
  datatype Spot =
    | AtReceive                           // waiting for the next server message
    | AtTool(todo: seq<ToolRequest>)      // inside executor.execute for todo[0]
    | AtToolReply                         // inside send_tool_response

  /** What wakes a suspended consumer up. */
  datatype Wake =
    | GotResponse(response: Response)
    | StreamEnded
    | StreamFailed
    | ToolReturned(result: string)
    | ToolRaised
    | ReplySent(ok: bool)

  datatype Progress = Suspended(spot: Spot) | Returned(alive: bool)

  /** The frames offered, the counter increments, and where control is next. */
  datatype Effect = Effect(offers: seq<OutFrame>, turns: nat, tools: nat, next: Progress)

  predicate Fits(spot: Spot, wake: Wake) {
    match spot
    case AtReceive => wake.GotResponse? || wake.StreamEnded? || wake.StreamFailed?
    case AtTool(todo) => todo != [] && (wake.ToolReturned? || wake.ToolRaised?)
    case AtToolReply => wake.ReplySent?
  }

  function AudioOffers(parts: seq<Bytes>, speaker: bool): seq<OutFrame> {
    if parts == [] then []
    else
      var n := |parts| - 1;
      AudioOffers(parts[..n], speaker) + if speaker && parts[n] != [] then [AudioPcm(parts[n])] else []
  }

  function ContentOffers(c: Content, speaker: bool): seq<OutFrame> {
    AudioOffers(c.audio, speaker)
    + (if c.said != "" then [AssistantText(c.said)] else [])
    + (if c.heard != "" then [UserTranscript(c.heard)] else [])
  }

  function AfterContent(toolCalls: Option<seq<ToolRequest>>): Spot {
    match toolCalls
    case None => AtReceive
    case Some(todo) => if todo == [] then AtToolReply else AtTool(todo)
  }

  /** Runs the consumer from a wake-up to its next suspension point or its return. */
  function Resume(spot: Spot, wake: Wake, speaker: bool): Effect
    requires Fits(spot, wake)
  {
    match wake
    case GotResponse(r) =>
      (match r.content
       case None => Effect([], 0, 0, Suspended(AfterContent(r.toolCalls)))
       case Some(c) =>
         if c.interrupted || c.turnComplete then
           Effect(ContentOffers(c, speaker) + [TurnComplete], 1, 0, Returned(true))
         else
           Effect(ContentOffers(c, speaker), 0, 0, Suspended(AfterContent(r.toolCalls))))
    case StreamEnded => Effect([], 0, 0, Returned(false))
    case StreamFailed => Effect([ErrorFrame(Receiving)], 0, 0, Returned(false))
    case ToolReturned(result) =>
      var t := spot.todo[0];
      var rest := spot.todo[1..];
      Effect([ToolCall(t.name, t.callId, result)], 0, 1,
             Suspended(if rest == [] then AtToolReply else AtTool(rest)))
    case ToolRaised => Effect([ErrorFrame(Receiving)], 0, 0, Returned(false))
    case ReplySent(ok) =>
      Effect(if ok then [] else [ErrorFrame(SendingToolReply)], 0, 0, Suspended(AtReceive))
  }

  ghost predicate IsTurn(f: OutFrame) { f.TurnComplete? }
  ghost predicate IsTool(f: OutFrame) { f.ToolCall? }
  ghost predicate IsAudio(f: OutFrame) { f.AudioPcm? }
  ghost predicate IsFatal(f: OutFrame) { f == ErrorFrame(WholeSession) }
  ghost predicate IsEnding(f: OutFrame) { f.SessionEnded? || f.OutboxStop? }

  /** The non-empty audio parts, and with the speaker off none of them. */
  lemma {:induction false} AudioOffersAreTheParts(parts: seq<Bytes>, speaker: bool)
    ensures var kept := Filter((b: Bytes) => speaker && b != [], parts);
            && |AudioOffers(parts, speaker)| == |kept|
            && forall i :: 0 <= i < |kept| ==> AudioOffers(parts, speaker)[i] == AudioPcm(kept[i])
  {
    if parts != [] {
      AudioOffersAreTheParts(parts[..|parts| - 1], speaker);
    }
  }

  lemma ContentFrames(c: Content, speaker: bool)
    ensures var body := ContentOffers(c, speaker);
            forall i :: 0 <= i < |body| ==>
              (body[i].AudioPcm? && speaker) || body[i].AssistantText? || body[i].UserTranscript?
  {
    var audio := AudioOffers(c.audio, speaker);
    AudioOffersAreTheParts(c.audio, speaker);
    assert forall i :: 0 <= i < |audio| ==> audio[i].AudioPcm? && speaker by {
      forall i | 0 <= i < |audio| ensures audio[i].AudioPcm? && speaker {
        assert Filter((b: Bytes) => speaker && b != [], c.audio)[i] != [];
      }
    }
  }

  lemma ContentCounts(c: Content, speaker: bool)
    ensures var body := ContentOffers(c, speaker);
            && Count(IsTurn, body) == 0 && Count(IsTool, body) == 0
            && (!speaker ==> Count(IsAudio, body) == 0)
            && forall i :: 0 <= i < |body| ==> !IsEnding(body[i]) && !IsFatal(body[i])
  {
    var body := ContentOffers(c, speaker);
    ContentFrames(c, speaker);
    CountNone(IsTurn, body);
    CountNone(IsTool, body);
    if !speaker {
      CountNone(IsAudio, body);
    }
  }

  lemma CountShort(p: OutFrame -> bool, xs: seq<OutFrame>)
    ensures xs == [] ==> Count(p, xs) == 0
    ensures |xs| == 1 ==> Count(p, xs) == if p(xs[0]) then 1 else 0
  {
    if |xs| == 1 {
      assert xs == [] + [xs[0]];
      CountSnoc(p, [], xs[0]);
    }
  }

  /** What a wake-up may offer and count. */
  ghost predicate Counted(e: Effect, speaker: bool) {
    && e.turns == Count(IsTurn, e.offers)
    && e.turns == (if e.next == Returned(true) then 1 else 0)
    && e.tools == Count(IsTool, e.offers)
    && (!speaker ==> Count(IsAudio, e.offers) == 0)
    && forall i :: 0 <= i < |e.offers| ==> !IsEnding(e.offers[i]) && !IsFatal(e.offers[i])
  }

  /**
   * The increments match the frames: `turns` counts the turn_complete frames of the
   * activation and is 1 exactly when it returns True; `tool_calls` counts tool_call frames.
   * None of these frames ends the session, and with the speaker off no audio is offered.
   */
  lemma ResumeCounts(spot: Spot, wake: Wake, speaker: bool)
    requires Fits(spot, wake)
    ensures Counted(Resume(spot, wake, speaker), speaker)
  {
    if wake.GotResponse? && wake.response.content.Some? {
      ContentResumeCounts(spot, wake, speaker);
    } else {
      var e := Resume(spot, wake, speaker);
      CountShort(IsTurn, e.offers);
      CountShort(IsTool, e.offers);
      CountShort(IsAudio, e.offers);
    }
  }

  lemma ContentResumeCounts(spot: Spot, wake: Wake, speaker: bool)
    requires Fits(spot, wake) && wake.GotResponse? && wake.response.content.Some?
    ensures Counted(Resume(spot, wake, speaker), speaker)
  {
    var c := wake.response.content.value;
    ContentCounts(c, speaker);
    var body := ContentOffers(c, speaker);
    if c.interrupted || c.turnComplete {
      TurnCounts(body, speaker);
    } else {
      assert Resume(spot, wake, speaker) == Effect(body, 0, 0, Suspended(AfterContent(wake.response.toolCalls)));
    }
  }

  /** Frames that are neither counted nor an ending, closed by a turn_complete. */
  lemma TurnCounts(body: seq<OutFrame>, speaker: bool)
    requires Count(IsTurn, body) == 0 && Count(IsTool, body) == 0 && (!speaker ==> Count(IsAudio, body) == 0)
    requires forall i :: 0 <= i < |body| ==> !IsEnding(body[i]) && !IsFatal(body[i])
    ensures Counted(Effect(body + [TurnComplete], 1, 0, Returned(true)), speaker)
  {
    CountSnoc(IsTurn, body, TurnComplete);
    CountSnoc(IsTool, body, TurnComplete);
    CountSnoc(IsAudio, body, TurnComplete);
  }

  /** A consumer never suspends inside a tool call it has no request for. */
  ghost predicate GoodSpot(spot: Spot) { spot.AtTool? ==> spot.todo != [] }

  lemma ResumeKeepsGoodSpot(spot: Spot, wake: Wake, speaker: bool)
    requires Fits(spot, wake)
    ensures var e := Resume(spot, wake, speaker); e.next.Suspended? ==> GoodSpot(e.next.spot)
  {
  }
}
