/** Particular runs of a session: the forward loop reaching the end, and limits of the bracketing. */
module ChatRuns {
  import opened Prelude
  import opened BoundedQueue
  import opened Session
  import Consumer
  import Runner
  import opened RunnerProofs
  import opened RunnerDelivery
  import opened Chat
  import opened ChatProofs
  import opened Bracketing

  ghost predicate Reachable(s: Chat) {
    exists repo, es :: s == Exec(Init(repo), es)
  }

  lemma ReachableStep(s: Chat, e: Event)
    requires Reachable(s)
    ensures Reachable(Step(s, e))
  {
    var repo, es :| s == Exec(Init(repo), es);
    assert (es + [e])[..|es|] == es;
    assert Step(s, e) == Exec(Init(repo), es + [e]);
  }

  lemma ReachableInit(repo: bool)
    ensures Reachable(Init(repo))
  {
    assert Init(repo) == Exec(Init(repo), []);
  }

  lemma ReachableInv(s: Chat)
    requires Reachable(s)
    ensures ChatInv(s)
  {
    var repo, es :| s == Exec(Init(repo), es);
    RunKeepsChatInv(repo, es);
  }

  // ---- The forward loop reaches the sentinel ---------------------------------------------

  /** Forward loop c takes and delivers n frames with no failing send. */
  ghost function Pump(s: Chat, c: nat, n: nat): Chat
    decreases n
  {
    if n == 0 then s else Pump(Step(Step(s, Forward(c)), Forwarded(c, true)), c, n - 1)
  }

  lemma {:induction false} PumpToSentinel(s: Chat, c: nat, before: seq<OutFrame>)
    requires c in s.forwarders && s.forwarders[c].phase.Getting?
    requires s.r.io.outbox.waiting == before + [OutboxStop] && OutboxStop !in before
    ensures var t := Pump(s, c, |before| + 1);
            && c in t.forwarders
            && t.forwarders[c] == Forwarder(Stopped(OutboxStop), s.forwarders[c].delivered + before)
            && t.r.io.outbox.waiting == []
    decreases |before|
  {
    var s1 := Step(s, Forward(c));
    var s2 := Step(s1, Forwarded(c, true));
    if before == [] {
      assert Pump(s2, c, 0) == s2;
      assert s.forwarders[c].delivered + before == s.forwarders[c].delivered;
    } else {
      assert s.r.io.outbox.waiting[1..] == before[1..] + [OutboxStop];
      PumpToSentinel(s2, c, before[1..]);
      assert s.forwarders[c].delivered + before == s.forwarders[c].delivered + [before[0]] + before[1..];
    }
  }

  /** Forward loop c gets the frame through that it is sending, if any. */
  ghost function Delivered(s: Chat, c: nat): Chat {
    if c in s.forwarders && s.forwarders[c].phase.Delivering? then Step(s, Forwarded(c, true)) else s
  }

  /**
   * If two outbox slots were free when the session ended, a forward loop that has not stopped
   * delivers the frame it holds and everything left, in order, and then stops at the sentinel,
   * unless one of its sends fails or another loop has already taken the sentinel.
   */
  lemma ForwardLoopReachesSentinel(s: Chat, c: nat)
    requires Reachable(s) && s.r.pc == Runner.Done(true) && WaitingAtEnd(s.r) + 2 <= OUTBOX_MAX_SIZE
    requires c in s.forwarders && !s.forwarders[c].phase.Stopped?
    requires OutboxStop !in s.r.io.outbox.taken
    ensures var left := s.r.io.outbox.waiting;
            var t := Pump(Delivered(s, c), c, |left|);
            && left != [] && left[|left| - 1] == OutboxStop
            && c in t.forwarders
            && t.forwarders[c] == Forwarder(Stopped(OutboxStop),
                 s.forwarders[c].delivered + Held(s.forwarders[c].phase) + left[..|left| - 1])
  {
    LeftAtTheEnd(s);
    var f := s.forwarders[c];
    assert f.delivered + Held(f.phase) == Delivered(s, c).forwarders[c].delivered;
    PumpToSentinel(Delivered(s, c), c, s.r.io.outbox.waiting[..|s.r.io.outbox.waiting| - 1]);
  }

  lemma LeftAtTheEnd(s: Chat)
    requires Reachable(s) && s.r.pc == Runner.Done(true) && WaitingAtEnd(s.r) + 2 <= OUTBOX_MAX_SIZE
    requires OutboxStop !in s.r.io.outbox.taken
    ensures var left := s.r.io.outbox.waiting;
            left != [] && left == left[..|left| - 1] + [OutboxStop] && OutboxStop !in left[..|left| - 1]
  {
    ReachableInv(s);
    SentinelAccepted(s.r);
    var q := s.r.io.outbox;
    var before :| OutboxStop !in before && q.taken + q.waiting == before + [OutboxStop];
    LastIsWaiting(q.taken, q.waiting, before, OutboxStop);
  }

  lemma LastIsWaiting<T>(taken: seq<T>, waiting: seq<T>, before: seq<T>, x: T)
    requires taken + waiting == before + [x] && x !in before && x !in taken
    ensures waiting != []
    ensures waiting == waiting[..|waiting| - 1] + [x] && x !in waiting[..|waiting| - 1]
  {
    assert (before + [x])[|before|] == x;
    assert x in taken + waiting;
    var n := |waiting| - 1;
    assert waiting[n] == (taken + waiting)[|taken| + n] == x;
    assert forall i :: 0 <= i < n ==> waiting[i] == (taken + waiting)[|taken| + i] == before[|taken| + i];
  }

  /** Offers, sends, counters and records stay as they are. */
  ghost predicate Frozen(r: Runner.Runner, t: Runner.Runner) {
    && t.pc == r.pc && t.io.outbox.offered == r.io.outbox.offered && t.io.sent == r.io.sent
    && t.tally == r.tally && t.finals == r.finals
  }

  lemma DoneIsFrozen(r: Runner.Runner, e: Runner.Event)
    requires Tracked(r.pc, r.recv) && r.pc.Done?
    ensures Frozen(r, Runner.Step(r, e))
  {
  }

  /** Once a runner has ended, no event of the session changes what it offered, sent or recorded. */
  lemma EndedIsFinal(s: Chat, e: Event)
    requires Reachable(s) && s.r.pc.Done?
    ensures Frozen(s.r, Step(s, e).r)
  {
    ReachableInv(s);
    match e {
      case Receive(c, m) =>
        if c in s.voices && FilterMessage(s.voices[c], m).frame.Some? {
          DoneIsFrozen(s.r, Runner.Outside(Runner.InboxPut(FilterMessage(s.voices[c], m).frame.value)));
        }
      case RequestStop => DoneIsFrozen(s.r, Runner.Outside(Runner.InboxPut(Stop)));
      case Forward(c) => DoneIsFrozen(s.r, Runner.Outside(Runner.OutboxTake));
      case Run(re) => DoneIsFrozen(s.r, re);
      case _ =>
    }
  }

  // ---- Why voice bracketing needs its assumptions ----------------------------------------

  lemma TriesToStart() returns (s: Chat)
    ensures Reachable(s) && s.r.pc.SendingStart? && !s.overlapped && NothingRefused(s)
    ensures s.r.io.failedStarts == {} && s.r.io.sent == [ActivityStart] && s.r.io.inbox.waiting == [AudioChunk([0])]
  {
    s := OneTurn();
    s := StartUp(s);
    ReachableStep(s, Run(Runner.Loop(Runner.Pop)));
    s := Step(s, Run(Runner.Loop(Runner.Pop)));
  }

  lemma StartFails() returns (s: Chat)
    ensures Reachable(s) && s.r.pc.Idle? && !s.overlapped && NothingRefused(s)
    ensures s.r.io.failedStarts == {0} && s.r.io.sent == [ActivityStart] && s.r.io.inbox.waiting == [AudioChunk([0])]
  {
    s := TriesToStart();
    ReachableStep(s, Run(Runner.Send(Runner.StartSent(false))));
    s := Step(s, Run(Runner.Send(Runner.StartSent(false))));
  }

  /** One receive loop that is not refused, whose activity_start fails: audio follows regardless. */
  lemma FailedStartIsFollowedByAudio()
    ensures exists s :: Reachable(s) && !s.overlapped && NothingRefused(s)
                        && s.r.io.failedStarts == {0} && s.r.io.sent == [ActivityStart, AudioChunk([0])]
  {
    var s := StartFails();
    ReachableStep(s, Run(Runner.Loop(Runner.Pop)));
    s := Step(s, Run(Runner.Loop(Runner.Pop)));
    assert s.r.io.sent == [ActivityStart, AudioChunk([0])];
  }

  lemma OneTurn() returns (s: Chat)
    ensures Reachable(s) && s.r.pc.NotStarted? && s.r.recv == Runner.Receivers([], None) && s.r.io.sent == []
    ensures !s.overlapped && NothingRefused(s) && s.r.io.failedStarts == {}
    ensures s.r.io.inbox.waiting == [ActivityStart, AudioChunk([0])]
  {
    ReachableInit(false);
    s := Init(false);
    ReachableStep(s, Connect(0));
    s := Step(s, Connect(0));
    s := ClientSays(s, 0, VoiceStart);
    assert s.voices[0];
    ReachableStep(s, Receive(0, Binary([0])));
    s := Step(s, Receive(0, Binary([0])));
  }

  /** A runner that has not started yet opens its connection. */
  lemma StartUp(s: Chat) returns (t: Chat)
    requires Reachable(s) && s.r.pc.NotStarted? && s.r.recv == Runner.Receivers([], None) && s.r.io.sent == []
    ensures Reachable(t) && t.r.pc.Idle? && t.r.recv == s.r.recv && t.r.io.sent == [] && t.r.io.inbox == s.r.io.inbox
    ensures t.r.io.failedStarts == s.r.io.failedStarts
    ensures t.voices == s.voices && t.overlapped == s.overlapped
    ensures NothingRefused(t) == NothingRefused(s)
  {
    var s1 := Step(s, Run(Runner.Life(Runner.Begin)));
    ReachableStep(s, Run(Runner.Life(Runner.Begin)));
    t := Step(s1, Run(Runner.Life(Runner.Connected)));
    ReachableStep(s1, Run(Runner.Life(Runner.Connected)));
  }

  ghost function Speakers(n: nat): seq<InputFrame> { seq(n, _ => SetSpeaker(false)) }

  /** n speaker messages fill n slots of an inbox that nobody reads yet. */
  lemma {:induction false} FillInbox(n: nat) returns (s: Chat)
    requires n <= INBOX_MAX_SIZE
    ensures Reachable(s) && s.r.pc.NotStarted? && s.r.recv == Runner.Receivers([], None) && s.r.io.sent == []
    ensures s.r.io.failedStarts == {} && s.voices == map[0 := false] && !s.overlapped
    ensures s.r.io.inbox.waiting == Speakers(n) && s.r.io.inbox.cap == INBOX_MAX_SIZE
  {
    if n == 0 {
      ReachableInit(false);
      s := Step(Init(false), Connect(0));
      ReachableStep(Init(false), Connect(0));
    } else {
      var s0 := FillInbox(n - 1);
      s := Step(s0, Receive(0, SpeakerMessage(false)));
      ReachableStep(s0, Receive(0, SpeakerMessage(false)));
      assert Speakers(n) == Speakers(n - 1) + [SetSpeaker(false)];
    }
  }

  /** The runner works off n speaker frames and then finds what is behind them. */
  lemma {:induction false} SkipSpeakers(s: Chat, n: nat, rest: seq<InputFrame>) returns (t: Chat)
    requires Reachable(s) && s.r.pc.Idle? && s.r.io.inbox.waiting == Speakers(n) + rest
    ensures Reachable(t) && t.r.pc.Idle? && t.r.io.inbox.waiting == rest && t.r.io.sent == s.r.io.sent
    ensures t.r.io.failedStarts == s.r.io.failedStarts && t.overlapped == s.overlapped
    decreases n
  {
    if n == 0 {
      t := s;
      assert Speakers(0) + rest == rest;
    } else {
      var s1 := Step(s, Run(Runner.Loop(Runner.Pop)));
      ReachableStep(s, Run(Runner.Loop(Runner.Pop)));
      assert (Speakers(n) + rest)[0] == SetSpeaker(false);
      assert (Speakers(n) + rest)[1..] == Speakers(n - 1) + rest;
      t := SkipSpeakers(s1, n - 1, rest);
    }
  }

  /** The inbox was full of speaker frames when the start was refused; one of them has been taken. */
  lemma StartRefused() returns (s: Chat)
    ensures Reachable(s) && s.r.pc.Idle? && !s.overlapped && s.voices == map[0 := true]
    ensures s.r.io.failedStarts == {} && s.r.io.sent == []
    ensures s.r.io.inbox.cap == INBOX_MAX_SIZE && s.r.io.inbox.waiting == Speakers(INBOX_MAX_SIZE - 1)
  {
    s := FillInbox(INBOX_MAX_SIZE);
    ReachableStep(s, Receive(0, VoiceStart));
    s := Step(s, Receive(0, VoiceStart));
    assert s.voices == map[0 := true] && s.r.io.inbox.waiting == Speakers(INBOX_MAX_SIZE);
    s := StartUp(s);
    ReachableStep(s, Run(Runner.Loop(Runner.Pop)));
    s := Step(s, Run(Runner.Loop(Runner.Pop)));
    assert Speakers(INBOX_MAX_SIZE)[1..] == Speakers(INBOX_MAX_SIZE - 1);
  }

  /** A voice_start refused by a full inbox leaves the flag set, and audio is sent unbracketed. */
  lemma RefusedStartBreaksBracketing()
    ensures exists s :: Reachable(s) && !s.overlapped && s.r.io.failedStarts == {}
                        && s.r.io.sent == [AudioChunk([0])] && !Bracketed(s.r.io.sent)
  {
    var s := StartRefused();
    ReachableStep(s, Receive(0, Binary([0])));
    s := Step(s, Receive(0, Binary([0])));
    assert s.r.io.inbox.waiting == Speakers(INBOX_MAX_SIZE - 1) + [AudioChunk([0])];
    s := SkipSpeakers(s, INBOX_MAX_SIZE - 1, [AudioChunk([0])]);
    ReachableStep(s, Run(Runner.Loop(Runner.Pop)));
    s := Step(s, Run(Runner.Loop(Runner.Pop)));
    assert s.r.io.sent == [AudioChunk([0])];
    assert NeedsOpen(s.r.io.sent[0]) && !OpenedBefore(s.r.io.sent, 0);
  }

  /** Every frame ever offered to the inbox found a free slot. */
  ghost predicate NothingRefused(s: Chat) {
    forall i :: 0 <= i < |s.r.io.inbox.depths| ==> s.r.io.inbox.depths[i] < INBOX_MAX_SIZE
  }

  /** Idle with no receiver at work, nothing refused and no send failed. */
  ghost predicate Settled(s: Chat, waiting: seq<InputFrame>, sent: seq<InputFrame>) {
    var b := s.r.recv;
    && Reachable(s) && s.r.pc.Idle? && NothingRefused(s) && s.r.io.failedStarts == {}
    && (b.current.Some? ==>
          b.current.value < |b.tasks| && b.tasks[b.current.value] == Runner.Ended(Runner.ReturnedTrue))
    && s.r.io.inbox.waiting == waiting && s.r.io.sent == sent
  }

  /** Two receive loops on one session: the first ends the turn that the second has begun. */
  lemma OverlapBreaksBracketing()
    ensures exists s :: Reachable(s) && NothingRefused(s) && s.r.io.failedStarts == {} && !Bracketed(s.r.io.sent)
  {
    var frames := [ActivityStart, ActivityStart, ActivityEnd, ActivityEnd];
    var s := TwoTurns();
    var t := StartUp(s);
    t := SendTurnStart(t, frames[1..], []);
    assert [] + [ActivityStart] == frames[..1];
    t := SendTurnStart(t, frames[2..], frames[..1]);
    assert frames[..1] + [ActivityStart] == frames[..2];
    t := SendTurnEnd(t, frames[3..], frames[..2]);
    assert frames[..2] + [ActivityEnd] == frames[..3];
    t := SendTurnEnd(t, [], frames[..3]);
    assert frames[..3] + [ActivityEnd] == frames;
    EndAfterEnd(frames);
  }

  lemma EndAfterEnd(xs: seq<InputFrame>)
    requires xs == [ActivityStart, ActivityStart, ActivityEnd, ActivityEnd]
    ensures !Bracketed(xs)
  {
    assert NeedsOpen(xs[3]);
    assert xs[2].ActivityEnd?;
    assert !OpenedBefore(xs, 3);
  }

  lemma BothConnected() returns (s: Chat)
    ensures Reachable(s) && s.r == Runner.Fresh(false) && s.voices == map[0 := false, 1 := false]
  {
    ReachableInit(false);
    s := Init(false);
    ReachableStep(s, Connect(0));
    s := Step(s, Connect(0));
    ReachableStep(s, Connect(1));
    s := Step(s, Connect(1));
  }

  lemma TwoTurns() returns (s: Chat)
    ensures Reachable(s) && s.r.pc.NotStarted? && s.r.recv == Runner.Receivers([], None) && s.r.io.sent == []
    ensures NothingRefused(s) && s.r.io.failedStarts == {}
    ensures s.r.io.inbox.waiting == [ActivityStart, ActivityStart, ActivityEnd, ActivityEnd]
  {
    s := BothConnected();
    s := ClientSays(s, 0, VoiceStart);
    s := ClientSays(s, 1, VoiceStart);
    s := ClientSays(s, 0, VoiceEnd);
    s := ClientSays(s, 1, VoiceEnd);
  }

  /** A connection begins or ends a voice turn with room in the inbox. */
  lemma ClientSays(s: Chat, c: nat, m: ClientMessage) returns (t: Chat)
    requires Reachable(s) && c in s.voices && NothingRefused(s)
    requires |s.r.io.inbox.waiting| < s.r.io.inbox.cap == INBOX_MAX_SIZE
    requires m.VoiceStart? || (m.VoiceEnd? && s.voices[c])
    ensures Reachable(t) && NothingRefused(t) && t.voices == s.voices[c := m.VoiceStart?]
    ensures t.r.pc == s.r.pc && t.r.recv == s.r.recv && t.overlapped == s.overlapped
    ensures t.r.io.inbox.cap == s.r.io.inbox.cap
    ensures t.r.io.sent == s.r.io.sent && t.r.io.failedStarts == s.r.io.failedStarts
    ensures t.r.io.inbox.waiting == s.r.io.inbox.waiting + [if m.VoiceStart? then ActivityStart else ActivityEnd]
  {
    ReachableStep(s, Receive(c, m));
    t := Step(s, Receive(c, m));
  }

  /** activity_start is sent, and its receiver starts. */
  lemma SendStart(s: Chat, rest: seq<InputFrame>, sent: seq<InputFrame>) returns (t: Chat)
    requires Settled(s, [ActivityStart] + rest, sent)
    ensures Reachable(t) && t.r.pc.Idle? && NothingRefused(t) && t.r.io.failedStarts == {}
    ensures t.r.io.inbox.waiting == rest && t.r.io.sent == sent + [ActivityStart]
    ensures t.r.recv ==
            Runner.Receivers(s.r.recv.tasks + [Runner.Live(Consumer.AtReceive, false)], Some(|s.r.recv.tasks|))
  {
    var e1, e2 := Run(Runner.Loop(Runner.Pop)), Run(Runner.Send(Runner.StartSent(true)));
    var s1 := Step(s, e1);
    assert s1.r.pc.SendingStart? && s1.r.io.sent == sent + [ActivityStart] && s1.r.io.inbox.waiting == rest;
    ReachableStep(s, e1);
    ReachableStep(s1, e2);
    t := Step(s1, e2);
  }

  /** ... and Gemini completes the turn before the user has finished. */
  lemma SendTurnStart(s: Chat, rest: seq<InputFrame>, sent: seq<InputFrame>) returns (t: Chat)
    requires Settled(s, [ActivityStart] + rest, sent)
    ensures Settled(t, rest, sent + [ActivityStart])
  {
    var s1 := SendStart(s, rest, sent);
    var i := |s.r.recv.tasks|;
    var early := Consumer.Response(Some(Consumer.Content([], "", "", false, true)), None);
    var e := Run(Runner.Background(i, Runner.Woken(Consumer.GotResponse(early))));
    assert s1.r.recv.tasks[i] == Runner.Live(Consumer.AtReceive, false);
    ReachableStep(s1, e);
    t := Step(s1, e);
    assert t.r.io.sent == s1.r.io.sent && t.r.io.inbox == s1.r.io.inbox;
  }

  lemma SendTurnEnd(s: Chat, rest: seq<InputFrame>, sent: seq<InputFrame>) returns (t: Chat)
    requires Settled(s, [ActivityEnd] + rest, sent)
    ensures Settled(t, rest, sent + [ActivityEnd])
  {
    var e1, e2 := Run(Runner.Loop(Runner.Pop)), Run(Runner.Send(Runner.EndSent(true)));
    var e3 := Run(Runner.Loop(Runner.ReceiverDone));
    var s1 := Step(s, e1);
    assert s1.r.pc.SendingEnd? && s1.r.io.sent == sent + [ActivityEnd] && s1.r.io.inbox.waiting == rest;
    var s2 := Step(s1, e2);
    ReachableStep(s, e1);
    ReachableStep(s1, e2);
    ReachableStep(s2, e3);
    t := Step(s2, e3);
  }
}
