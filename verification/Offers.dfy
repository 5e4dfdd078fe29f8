/** What a response means to the client: which frames one wake-up of the consumer offers, and in what order. */
module Offers {
  import opened Prelude
  import opened Session
  import opened Consumer

  ghost predicate IsAssistant(f: OutFrame) { f.AssistantText? }
  ghost predicate IsUser(f: OutFrame) { f.UserTranscript? }
  ghost predicate IsMode(f: OutFrame) { f.SpeakerModeUpdated? }
  ghost predicate IsReady(f: OutFrame) { f.SessionReady? }

  /** The audio frames of these parts. */
  ghost function AudioFrames(parts: seq<Bytes>): seq<OutFrame> {
    if parts == [] then []
    else AudioFrames(parts[..|parts| - 1]) + if parts[|parts| - 1] == [] then [] else [AudioPcm(parts[|parts| - 1])]
  }

  /** Audio before the assistant's text, that before the user's transcript, and turn_complete behind all. */
  ghost function Rank(f: OutFrame): int {
    match f
    case AudioPcm(_) => 0
    case AssistantText(_) => 1
    case UserTranscript(_) => 2
    case TurnComplete => 3
    case _ => 4
  }

  ghost predicate InRankOrder(fs: seq<OutFrame>) {
    && (forall i :: 0 <= i < |fs| ==> Rank(fs[i]) < 4)
    && (forall i, j :: 0 <= i < j < |fs| ==> Rank(fs[i]) <= Rank(fs[j]))
  }

  /** One text frame, unless the text is empty. */
  ghost function IfAny(text: string, frame: OutFrame): seq<OutFrame> {
    if text == "" then [] else [frame]
  }

  lemma {:induction false} AudioOffersAre(parts: seq<Bytes>, speaker: bool)
    ensures AudioOffers(parts, speaker) == if speaker then AudioFrames(parts) else []
    ensures forall i :: 0 <= i < |AudioOffers(parts, speaker)| ==> AudioOffers(parts, speaker)[i].AudioPcm?
  {
    if parts != [] { AudioOffersAre(parts[..|parts| - 1], speaker); }
  }

  ghost predicate Uniform(p: OutFrame -> bool, fs: seq<OutFrame>, yes: bool) {
    forall i :: 0 <= i < |fs| ==> p(fs[i]) == yes
  }

  lemma {:induction false} FilterUniform(p: OutFrame -> bool, fs: seq<OutFrame>, yes: bool)
    requires Uniform(p, fs, yes)
    ensures Filter(p, fs) == if yes then fs else []
  {
    if fs != [] { FilterUniform(p, fs[..|fs| - 1], yes); }
  }

  /** Two parts, each of which a predicate holds of as a whole or not at all. */
  lemma FilterParts(p: OutFrame -> bool, a: seq<OutFrame>, inA: seq<OutFrame>, b: seq<OutFrame>, yes: bool)
    requires Filter(p, a) == inA && Uniform(p, b, yes)
    ensures Filter(p, a + b) == inA + if yes then b else []
  {
    FilterConcat(p, a, b);
    FilterUniform(p, b, yes);
  }

  /** The turn is over: the model was interrupted, or has completed it. */
  ghost predicate Completes(wake: Wake) {
    && wake.GotResponse? && wake.response.content.Some?
    && (wake.response.content.value.interrupted || wake.response.content.value.turnComplete)
  }

  /** The stream is over or broken, or a tool has raised. */
  ghost predicate Failing(wake: Wake) {
    wake.StreamEnded? || wake.StreamFailed? || wake.ToolRaised?
  }

  ghost predicate EndsInTurn(fs: seq<OutFrame>) {
    fs != [] && fs[|fs| - 1] == TurnComplete
  }

  /**
   * The assistant's texts among the frames are the output transcription, the user's the input
   * transcription, each if it is not empty; the audio is that of the non-empty parts if the
   * speaker is on; and they come in the order audio, assistant, user, turn_complete.
   */
  ghost predicate ContentMeant(c: Content, speaker: bool, fs: seq<OutFrame>) {
    && Filter(IsAudio, fs) == (if speaker then AudioFrames(c.audio) else [])
    && Filter(IsAssistant, fs) == IfAny(c.said, AssistantText(c.said))
    && Filter(IsUser, fs) == IfAny(c.heard, UserTranscript(c.heard))
    && InRankOrder(fs)
    && (EndsInTurn(fs) <==> c.interrupted || c.turnComplete)
  }

  lemma FilterFour(p: OutFrame -> bool, a: seq<OutFrame>, b: seq<OutFrame>, c: seq<OutFrame>, d: seq<OutFrame>,
                   inA: bool, inB: bool, inC: bool)
    requires Uniform(p, a, inA) && Uniform(p, b, inB) && Uniform(p, c, inC) && Uniform(p, d, false)
    ensures Filter(p, a + b + c + d) ==
            (if inA then a else []) + (if inB then b else []) + (if inC then c else [])
  {
    var fa, fb, fc := if inA then a else [], if inB then b else [], if inC then c else [];
    FilterUniform(p, a, inA);
    FilterParts(p, a, fa, b, inB);
    FilterParts(p, a + b, fa + fb, c, inC);
    FilterParts(p, a + b + c, fa + fb + fc, d, false);
    assert fa + fb + fc + [] == fa + fb + fc;
  }

  ghost predicate Ranked(fs: seq<OutFrame>, low: int, high: int) {
    && (forall i :: 0 <= i < |fs| ==> low <= Rank(fs[i]) <= high)
    && (forall i, j :: 0 <= i < j < |fs| ==> Rank(fs[i]) <= Rank(fs[j]))
  }

  lemma RankedConcat(a: seq<OutFrame>, b: seq<OutFrame>, low: int, mid: int, high: int)
    requires Ranked(a, low, mid) && Ranked(b, mid, high) && low <= mid <= high
    ensures Ranked(a + b, low, high)
  {
  }

  lemma PartsFilter(c: Content, a: seq<OutFrame>, b: seq<OutFrame>, u: seq<OutFrame>, t: seq<OutFrame>)
    requires Uniform(IsAudio, a, true) && b == IfAny(c.said, AssistantText(c.said))
    requires u == IfAny(c.heard, UserTranscript(c.heard)) && (t == [] || t == [TurnComplete])
    ensures var fs := a + b + u + t;
            Filter(IsAudio, fs) == a && Filter(IsAssistant, fs) == b && Filter(IsUser, fs) == u
  {
    assert forall i :: 0 <= i < |a| ==> IsAudio(a[i]);
    FilterFour(IsAudio, a, b, u, t, true, false, false);
    FilterFour(IsAssistant, a, b, u, t, false, true, false);
    FilterFour(IsUser, a, b, u, t, false, false, true);
    assert a + [] + [] == a && [] + b + [] == b && [] + [] + u == u;
  }

  lemma PartsRank(c: Content, a: seq<OutFrame>, b: seq<OutFrame>, u: seq<OutFrame>, t: seq<OutFrame>)
    requires Uniform(IsAudio, a, true) && b == IfAny(c.said, AssistantText(c.said))
    requires u == IfAny(c.heard, UserTranscript(c.heard)) && (t == [] || t == [TurnComplete])
    ensures InRankOrder(a + b + u + t)
  {
    assert forall i :: 0 <= i < |a| ==> IsAudio(a[i]);
    RankedConcat(a, b, 0, 1, 1);
    RankedConcat(a + b, u, 0, 2, 2);
    RankedConcat(a + b + u, t, 0, 3, 3);
    assert Ranked(a + b + u + t, 0, 3);
  }

  lemma PartsMean(c: Content, speaker: bool, audio: seq<OutFrame>, turn: seq<OutFrame>)
    requires audio == (if speaker then AudioFrames(c.audio) else []) && Uniform(IsAudio, audio, true)
    requires turn == if c.interrupted || c.turnComplete then [TurnComplete] else []
    ensures ContentMeant(c, speaker,
              audio + IfAny(c.said, AssistantText(c.said)) + IfAny(c.heard, UserTranscript(c.heard)) + turn)
  {
    var said, heard := IfAny(c.said, AssistantText(c.said)), IfAny(c.heard, UserTranscript(c.heard));
    assert forall i :: 0 <= i < |audio| ==> IsAudio(audio[i]);
    PartsFilter(c, audio, said, heard, turn);
    PartsRank(c, audio, said, heard, turn);
    LastPart(audio, said, heard, turn);
  }

  lemma LastPart(a: seq<OutFrame>, b: seq<OutFrame>, c: seq<OutFrame>, d: seq<OutFrame>)
    requires TurnComplete !in a && TurnComplete !in b && TurnComplete !in c
    requires d == [] || d == [TurnComplete]
    ensures EndsInTurn(a + b + c + d) <==> d != []
  {
    var abc := a + b + c;
    assert TurnComplete !in abc;
    assert abc + [] == abc;
  }

  /** What a response with content offers means what its content says; one without offers nothing. */
  lemma ResponseMeans(r: Response, speaker: bool)
    ensures var fs := Resume(AtReceive, GotResponse(r), speaker).offers;
            if r.content.Some? then ContentMeant(r.content.value, speaker, fs) else fs == []
  {
    if r.content.Some? {
      var c := r.content.value;
      var audio := AudioOffers(c.audio, speaker);
      var turn: seq<OutFrame> := if c.interrupted || c.turnComplete then [TurnComplete] else [];
      AudioOffersAre(c.audio, speaker);
      assert Uniform(IsAudio, audio, true);
      PartsMean(c, speaker, audio, turn);
      ResponseOffers(r, c, speaker);
    }
  }

  lemma ResponseOffers(r: Response, c: Content, speaker: bool)
    requires r.content == Some(c)
    ensures Resume(AtReceive, GotResponse(r), speaker).offers ==
            AudioOffers(c.audio, speaker) + IfAny(c.said, AssistantText(c.said))
            + IfAny(c.heard, UserTranscript(c.heard))
            + if c.interrupted || c.turnComplete then [TurnComplete] else []
  {
    var body := ContentOffers(c, speaker);
    assert body + [] == body;
  }

  /** Where the consumer waits next: for the tool calls of the message, in their order, or for the next message. */
  lemma ToolCallsFollow(r: Response, speaker: bool)
    requires !Completes(GotResponse(r))
    ensures Resume(AtReceive, GotResponse(r), speaker).next.Suspended?
    ensures var spot := Resume(AtReceive, GotResponse(r), speaker).next.spot;
            && (spot.AtReceive? <==> r.toolCalls == None)
            && (spot.AtToolReply? <==> r.toolCalls == Some([]))
            && (spot.AtTool? ==> r.toolCalls == Some(spot.todo))
  {
  }

  /** An error frame is offered exactly for a broken stream, a raising tool and a reply that could not be sent. */
  lemma ErrorsReported(spot: Spot, wake: Wake, speaker: bool)
    requires Fits(spot, wake) && !wake.GotResponse? && !wake.ToolReturned?
    ensures Resume(spot, wake, speaker).offers ==
            if wake.StreamFailed? || wake.ToolRaised? then [ErrorFrame(Receiving)]
            else if wake == ReplySent(false) then [ErrorFrame(SendingToolReply)]
            else []
    ensures wake.ReplySent? ==> Resume(spot, wake, speaker).next == Suspended(AtReceive)
  {
  }

  /** Neither mode nor ready frames come from a consumer. */
  ghost predicate FromConsumer(fs: seq<OutFrame>) {
    forall i :: 0 <= i < |fs| ==> !IsMode(fs[i]) && !IsReady(fs[i])
  }

  lemma ContentFromConsumer(c: Content, speaker: bool, fs: seq<OutFrame>)
    requires ContentMeant(c, speaker, fs)
    ensures FromConsumer(fs)
  {
    assert forall i :: 0 <= i < |fs| ==> Rank(fs[i]) < 4;
  }

  lemma ConsumerOffers(spot: Spot, wake: Wake, speaker: bool)
    requires Fits(spot, wake)
    ensures FromConsumer(Resume(spot, wake, speaker).offers)
    ensures EndsInTurn(Resume(spot, wake, speaker).offers) <==> Completes(wake)
  {
    if wake.GotResponse? {
      ResponseMeans(wake.response, speaker);
      assert Resume(spot, wake, speaker) == Resume(AtReceive, wake, speaker);
      if wake.response.content.Some? {
        ContentFromConsumer(wake.response.content.value, speaker, Resume(spot, wake, speaker).offers);
      }
    } else if !wake.ToolReturned? {
      ErrorsReported(spot, wake, speaker);
    }
  }
}
