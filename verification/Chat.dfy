/** The WebSocket side: the receive loops, the forward loops, and the whole session with its runner. */
module Chat {
  import opened Prelude
  import opened BoundedQueue
  import opened Session
  import Runner

  /** One message from the client, as far as the receive loop tells them apart. */
  datatype ClientMessage =
    | Binary(data: Bytes)
    | TextInput(text: string)        // already stripped
    | VoiceStart
    | VoiceEnd
    | SpeakerMessage(enabled: bool)
    | Interrupt
    | Ping
    | Unrecognised                   // not JSON, or an unknown type: answered with an error
    | Malformed                      // JSON the handler raises on: the loop ends

  /** The new voice flag, the frame offered to the inbox, and whether the loop goes on. */
  datatype Filtered = Filtered(voice: bool, frame: Option<InputFrame>, open: bool)

  function FilterMessage(voice: bool, m: ClientMessage): Filtered {
    match m
    case Binary(data) =>
      Filtered(voice, if data != [] && voice then Some(AudioChunk(data)) else None, true)
    case TextInput(text) => Filtered(voice, if text == "" then None else Some(Text(text)), true)
    case VoiceStart => Filtered(true, Some(ActivityStart), true)
    case VoiceEnd => Filtered(false, if voice then Some(ActivityEnd) else None, true)
    case SpeakerMessage(b) => Filtered(voice, Some(SetSpeaker(b)), true)
    case Interrupt => Filtered(false, None, true)
    case Ping => Filtered(voice, None, true)
    case Unrecognised => Filtered(voice, None, true)
    case Malformed => Filtered(voice, None, false)
  }

  /** Which message lets which frame through, when a turn is open afterwards, and when the loop ends. */
  lemma FilterMeans(voice: bool, m: ClientMessage)
    ensures var f := FilterMessage(voice, m);
            && (forall t :: f.frame == Some(Text(t)) <==> m == TextInput(t) && t != "")
            && (forall b :: f.frame == Some(AudioChunk(b)) <==> m == Binary(b) && b != [] && voice)
            && (forall b :: f.frame == Some(SetSpeaker(b)) <==> m == SpeakerMessage(b))
            && (f.frame == Some(ActivityStart) <==> m == VoiceStart)
            && (f.frame == Some(ActivityEnd) <==> m == VoiceEnd && voice)
            && f.frame != Some(Stop)
            && (f.voice <==> m == VoiceStart || (voice && m != VoiceEnd && m != Interrupt))
            && (f.open <==> m != Malformed)
  {
  }

  /** The receive loop of one connection. */
  class ReceiveLoop {
    const state: SessionState
    var voiceActive: bool

    constructor (state: SessionState)
      ensures this.state == state && !voiceActive
    {
      this.state := state;
      voiceActive := false;
    }

    /** One iteration; `busy` is set when the client is told that the inbox is full. */
    method Handle(m: ClientMessage, now: real) returns (open: bool, busy: bool)
      requires state.Valid()
      modifies this`voiceActive, state`inbox, state`inboxQ, state`lastActive
      ensures state.Valid()
      ensures var f := FilterMessage(old(voiceActive), m);
              && voiceActive == f.voice && open == f.open
              && state.inboxQ == (if f.frame.Some? then Put(old(state.inboxQ), f.frame.value) else old(state.inboxQ))
              && (busy <==> f.frame.Some? && !m.Binary? && |old(state.inbox)| == INBOX_MAX_SIZE)
      ensures state.lastActive ==
              if FilterMessage(old(voiceActive), m).frame.Some? && !m.SpeakerMessage? then now
              else old(state.lastActive)
    {
      open, busy := true, false;
      match m {
        case Binary(data) =>
          if data != [] && voiceActive {
            state.Touch(now);
            var _ := state.PutInbox(AudioChunk(data));
          }
        case TextInput(text) =>
          if text != "" {
            state.Touch(now);
            var accepted := state.PutInbox(Text(text));
            busy := !accepted;
          }
        case VoiceStart =>
          voiceActive := true;
          state.Touch(now);
          var accepted := state.PutInbox(ActivityStart);
          busy := !accepted;
        case VoiceEnd =>
          if voiceActive {
            voiceActive := false;
            state.Touch(now);
            var accepted := state.PutInbox(ActivityEnd);
            busy := !accepted;
          }
        case SpeakerMessage(enabled) =>
          var accepted := state.PutInbox(SetSpeaker(enabled));
          busy := !accepted;
        case Interrupt =>
          voiceActive := false;
        case Malformed =>
          open := false;
        case _ =>
      }
    }
  }

  datatype LoopEnd = SawStop | SendFailed | Blocked

  /**
   * A forward loop running alone until it stops or the outbox is empty; sends[i] says whether
   * the i-th send succeeds.  What it took is what it sent, then at most one further frame.
   */
  method ForwardLoop(state: SessionState, sends: seq<bool>) returns (sent: seq<OutFrame>, end: LoopEnd)
    requires state.Valid() && |sends| >= |state.outbox|
    modifies state`outbox, state`outboxQ
    ensures state.Valid()
    ensures OutboxStop !in sent
    ensures match end
            case SawStop => sent + [OutboxStop] + state.outbox == old(state.outbox)
            case SendFailed =>
              && |sent| < |sends| && !sends[|sent|]
              && exists lost :: lost != OutboxStop && sent + [lost] + state.outbox == old(state.outbox)
            case Blocked => state.outbox == [] && sent == old(state.outbox)
    ensures forall i :: 0 <= i < |sent| ==> sends[i]
    ensures state.outboxQ.offered == old(state.outboxQ.offered)
  {
    sent := [];
    while state.outbox != []
      invariant state.Valid()
      invariant sent + state.outbox == old(state.outbox)
      invariant OutboxStop !in sent && |sent| + |state.outbox| <= |sends|
      invariant forall i :: 0 <= i < |sent| ==> sends[i]
      invariant state.outboxQ.offered == old(state.outboxQ.offered)
      decreases |state.outbox|
    {
      var item := state.TakeOutbox();
      assert sent + [item] + state.outbox == old(state.outbox);
      if item == OutboxStop {
        end := SawStop;
        return;
      }
      if !sends[|sent|] {
        end := SendFailed;
        return;
      }
      sent := sent + [item];
    }
    end := Blocked;
  }

  // ---- The whole session -----------------------------------------------------------------

  datatype Phase =
    | Getting                     // outbox.get()
    | Delivering(frame: OutFrame) // sending on the WebSocket
    | Stopped(last: OutFrame)     // took the sentinel, or the send of `last` failed

  datatype Forwarder = Forwarder(phase: Phase, delivered: seq<OutFrame>)

  datatype Popped = Popped(c: nat, frame: OutFrame)

  /**
   * One session with every connection it has had.  `voices` holds the voice flag of each
   * running receive loop; a forward loop may outlive the receive loop of its connection.
   */
  datatype Chat = Chat(
    r: Runner.Runner,
    voices: map<nat, bool>,
    forwarders: map<nat, Forwarder>,
    pops: seq<Popped>,
    overlapped: bool)            // two receive loops have run at once

  datatype Event =
    | Connect(c: nat)
    | Disconnect(c: nat)
    | Receive(c: nat, m: ClientMessage)
    | RequestStop
    | Forward(c: nat)
    | Forwarded(c: nat, ok: bool)
    | Run(e: Runner.Event)

  function Init(repo: bool): Chat {
    Chat(Runner.Fresh(repo), map[], map[], [], false)
  }

  function InboxPut(s: Chat, frame: InputFrame): Chat {
    s.(r := Runner.Step(s.r, Runner.Outside(Runner.InboxPut(frame))))
  }

  function ReceiveStep(s: Chat, c: nat, m: ClientMessage): Chat
    requires c in s.voices
  {
    var f := FilterMessage(s.voices[c], m);
    var s1 := if f.frame.Some? then InboxPut(s, f.frame.value) else s;
    s1.(voices := if f.open then s.voices[c := f.voice] else s.voices - {c})
  }

  function ForwardStep(s: Chat, c: nat): Chat
    requires c in s.forwarders && s.r.io.outbox.waiting != []
  {
    var frame := s.r.io.outbox.waiting[0];
    s.(r := Runner.Step(s.r, Runner.Outside(Runner.OutboxTake)),
       pops := s.pops + [Popped(c, frame)],
       forwarders := s.forwarders[c := s.forwarders[c].(
         phase := if frame == OutboxStop then Stopped(frame) else Delivering(frame))])
  }

  function ForwardedStep(f: Forwarder, ok: bool): Forwarder
    requires f.phase.Delivering?
  {
    if ok then Forwarder(Getting, f.delivered + [f.phase.frame]) else f.(phase := Stopped(f.phase.frame))
  }

  function Step(s: Chat, e: Event): Chat {
    match e
    case Connect(c) =>
      if c in s.forwarders || c in s.voices then s
      else s.(voices := s.voices[c := false],
              forwarders := s.forwarders[c := Forwarder(Getting, [])],
              overlapped := s.overlapped || s.voices != map[])
    case Disconnect(c) => s.(voices := s.voices - {c})
    case Receive(c, m) => if c in s.voices then ReceiveStep(s, c, m) else s
    case RequestStop => InboxPut(s, Stop)
    case Forward(c) =>
      if c in s.forwarders && s.forwarders[c].phase.Getting? && s.r.io.outbox.waiting != [] then
        ForwardStep(s, c)
      else s
    case Forwarded(c, ok) =>
      if c in s.forwarders && s.forwarders[c].phase.Delivering? then
        s.(forwarders := s.forwarders[c := ForwardedStep(s.forwarders[c], ok)])
      else s
    case Run(re) => if re.Outside? then s else s.(r := Runner.Step(s.r, re))
  }

  /** A session told to stop is offered a stop frame, by nobody else. */
  lemma StopIsOffered(s: Chat, e: Event)
    ensures e.RequestStop? ==> Step(s, e).r.io.inbox == Put(s.r.io.inbox, Stop)
    ensures !e.RequestStop? ==>
              var before, after := s.r.io.inbox.offered, Step(s, e).r.io.inbox.offered;
              after == before || (e.Receive? && exists f :: f != Stop && after == before + [f])
  {
    match e {
      case Receive(c, m) => if c in s.voices { FilterMeans(s.voices[c], m); }
      case Run(re) => if !re.Outside? { RunOffersNothing(s.r, re); }
      case _ =>
    }
  }

  lemma RunOffersNothing(r: Runner.Runner, e: Runner.Event)
    requires !e.Outside?
    ensures Runner.Step(r, e).io.inbox.offered == r.io.inbox.offered
  {
    match e {
      case Life(l) => LifeOffersNothing(r, l);
      case Loop(l) => LoopOffersNothing(r, l);
      case _ =>
    }
  }

  lemma LifeOffersNothing(r: Runner.Runner, e: Runner.LifeEvent)
    ensures Runner.LifeStep(r, e).io.inbox == r.io.inbox
  {
  }

  lemma LoopOffersNothing(r: Runner.Runner, e: Runner.LoopEvent)
    ensures Runner.LoopStep(r, e).io.inbox.offered == r.io.inbox.offered
  {
  }

  function Exec(s: Chat, events: seq<Event>): Chat {
    if events == [] then s else Step(Exec(s, events[..|events| - 1]), events[|events| - 1])
  }
}
