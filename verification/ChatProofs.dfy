/** Properties of a whole session: the runner, its receivers, and every connection it ever has. */
module ChatProofs {
  import opened Prelude
  import opened BoundedQueue
  import opened Session
  import Consumer
  import Runner
  import opened RunnerProofs
  import opened RunnerDelivery
  import opened Chat

  /** The runner's invariants together. */
  ghost predicate RunnerInv(r: Runner.Runner) {
    Tracked(r.pc, r.recv) && Counters(r) && Shutdown(r) && InOrder(r) && Queues(r) && BackToBack(r)
  }

  lemma FreshRunner(repo: bool)
    ensures RunnerInv(Runner.Fresh(repo))
  {
    FreshInOrder(repo);
  }

  lemma FreshInOrder(repo: bool)
    ensures InOrder(Runner.Fresh(repo))
  {
    assert Runner.Fresh(repo).io.sent + Pending(Runner.NotStarted) == [];
    SubsequenceRefl<InputFrame>([]);
  }

  lemma RunnerKeepsInv(r: Runner.Runner, e: Runner.Event)
    requires RunnerInv(r)
    ensures RunnerInv(Runner.Step(r, e))
  {
    StepKeepsTracked(r, e);
    StepKeepsShutdown(r, e);
    StepKeepsOrder(r, e);
    StepKeepsQueues(r, e);
    StepKeepsBackToBack(r, e);
  }

  // ---- Forward loops ---------------------------------------------------------------------

  ghost function FramesOf(pops: seq<Popped>): seq<OutFrame> {
    if pops == [] then [] else FramesOf(pops[..|pops| - 1]) + [pops[|pops| - 1].frame]
  }

  /** The frames that forward loop c took. */
  ghost function FramesBy(pops: seq<Popped>, c: nat): seq<OutFrame> {
    if pops == [] then []
    else FramesBy(pops[..|pops| - 1], c) + if pops[|pops| - 1].c == c then [pops[|pops| - 1].frame] else []
  }

  ghost function Held(phase: Phase): seq<OutFrame> {
    match phase
    case Getting => []
    case Delivering(frame) => [frame]
    case Stopped(last) => [last]
  }

  ghost function Account(forwarders: map<nat, Forwarder>, c: nat): seq<OutFrame> {
    if c in forwarders then forwarders[c].delivered + Held(forwarders[c].phase) else []
  }

  /**
   * The frames taken from the outbox are dealt out, each to one forward loop, and each loop has
   * sent all it took but the one frame it holds or stopped at.
   */
  ghost predicate DealtOut(s: Chat) {
    && FramesOf(s.pops) == s.r.io.outbox.taken
    && forall c :: FramesBy(s.pops, c) == Account(s.forwarders, c)
  }

  lemma LifeKeepsTaken(r: Runner.Runner, e: Runner.LifeEvent)
    ensures Runner.LifeStep(r, e).io.outbox.taken == r.io.outbox.taken
  {
  }

  lemma AbsorbKeepsTaken(r: Runner.Runner, e: Consumer.Effect)
    ensures Runner.Absorb(r, e).io.outbox.taken == r.io.outbox.taken
  {
    PutAllEffect(r.io.outbox, e.offers);
  }

  lemma LoopKeepsTaken(r: Runner.Runner, e: Runner.LoopEvent)
    ensures Runner.LoopStep(r, e).io.outbox.taken == r.io.outbox.taken
  {
    if e.InlineWake? && r.pc.Consuming? && Consumer.Fits(r.pc.spot, e.wake) {
      AbsorbKeepsTaken(r, Consumer.Resume(r.pc.spot, e.wake, r.speaker));
    }
  }

  lemma TaskKeepsTaken(r: Runner.Runner, i: nat, e: Runner.TaskEvent)
    ensures Runner.TaskStep(r, i, e).io.outbox.taken == r.io.outbox.taken
  {
    if e.Woken? && i < |r.recv.tasks| && r.recv.tasks[i].Live? && Consumer.Fits(r.recv.tasks[i].spot, e.wake) {
      AbsorbKeepsTaken(r, Consumer.Resume(r.recv.tasks[i].spot, e.wake, r.speaker));
    }
  }

  lemma RunKeepsTaken(r: Runner.Runner, e: Runner.Event)
    requires !e.Outside?
    ensures Runner.Step(r, e).io.outbox.taken == r.io.outbox.taken
  {
    match e {
      case Life(l) => LifeKeepsTaken(r, l);
      case Loop(l) => LoopKeepsTaken(r, l);
      case Send(d) =>
      case Background(i, t) => TaskKeepsTaken(r, i, t);
    }
  }

  lemma ForwardKeepsDealt(s: Chat, c: nat)
    requires DealtOut(s) && c in s.forwarders && s.forwarders[c].phase.Getting? && s.r.io.outbox.waiting != []
    ensures DealtOut(ForwardStep(s, c))
  {
    var t := ForwardStep(s, c);
    assert t.pops[..|s.pops|] == s.pops;
    forall d ensures FramesBy(t.pops, d) == Account(t.forwarders, d) {
      assert FramesBy(s.pops, d) == Account(s.forwarders, d);
    }
  }

  /** Every forward loop keeps its account. */
  lemma SameAccountsKeepDealt(s: Chat, t: Chat)
    requires DealtOut(s) && t.pops == s.pops && t.r.io.outbox.taken == s.r.io.outbox.taken
    requires forall c :: Account(t.forwarders, c) == Account(s.forwarders, c)
    ensures DealtOut(t)
  {
    forall c ensures FramesBy(t.pops, c) == Account(t.forwarders, c) {
      assert FramesBy(s.pops, c) == Account(s.forwarders, c);
    }
  }

  lemma DeliveryKeepsAccount(f: Forwarder, ok: bool)
    requires f.phase.Delivering?
    ensures var g := ForwardedStep(f, ok); g.delivered + Held(g.phase) == f.delivered + Held(f.phase)
  {
    assert f.delivered + [f.phase.frame] + [] == f.delivered + [f.phase.frame];
  }

  lemma StepKeepsDealt(s: Chat, e: Event)
    requires DealtOut(s)
    ensures DealtOut(Step(s, e))
  {
    match e {
      case Forward(c) =>
        if c in s.forwarders && s.forwarders[c].phase.Getting? && s.r.io.outbox.waiting != [] {
          ForwardKeepsDealt(s, c);
        }
      case Forwarded(c, ok) =>
        if c in s.forwarders && s.forwarders[c].phase.Delivering? {
          DeliveryKeepsAccount(s.forwarders[c], ok);
          SameAccountsKeepDealt(s, Step(s, e));
        }
      case Connect(c) => SameAccountsKeepDealt(s, Step(s, e));
      case Run(re) =>
        if !re.Outside? {
          RunKeepsTaken(s.r, re);
          SameAccountsKeepDealt(s, Step(s, e));
        }
      case _ => SameAccountsKeepDealt(s, Step(s, e));
    }
  }

  lemma {:induction false} FramesBySubsequence(pops: seq<Popped>, c: nat)
    ensures Subsequence(FramesBy(pops, c), FramesOf(pops))
  {
    if pops == [] {
      SubsequenceRefl(FramesOf(pops));
    } else {
      var n := |pops| - 1;
      FramesBySubsequence(pops[..n], c);
      if pops[n].c == c {
        SubsequenceKeep(FramesBy(pops[..n], c), FramesOf(pops[..n]), pops[n].frame);
      } else {
        SubsequenceSkip(FramesBy(pops[..n], c), FramesOf(pops[..n]), pops[n].frame);
        assert FramesBy(pops, c) == FramesBy(pops[..n], c);
      }
    }
  }

  // ---- Every run -------------------------------------------------------------------------

  ghost predicate ChatInv(s: Chat) {
    && RunnerInv(s.r)
    && DealtOut(s)
  }

  /** The runner takes a step, or none. */
  lemma StepIsRunnerStep(s: Chat, e: Event)
    ensures Step(s, e).r == s.r || exists re :: Step(s, e).r == Runner.Step(s.r, re)
  {
    match e {
      case Receive(c, m) =>
        if c in s.voices && FilterMessage(s.voices[c], m).frame.Some? {
          var put := Runner.Outside(Runner.InboxPut(FilterMessage(s.voices[c], m).frame.value));
          assert Step(s, e).r == Runner.Step(s.r, put);
        }
      case RequestStop => assert Step(s, e).r == Runner.Step(s.r, Runner.Outside(Runner.InboxPut(Stop)));
      case Forward(c) =>
        assert Step(s, e).r == s.r || Step(s, e).r == Runner.Step(s.r, Runner.Outside(Runner.OutboxTake));
      case Run(re) => assert Step(s, e).r == s.r || Step(s, e).r == Runner.Step(s.r, re);
      case _ =>
    }
  }

  lemma StepKeepsRunner(s: Chat, e: Event)
    requires RunnerInv(s.r)
    ensures RunnerInv(Step(s, e).r)
  {
    StepIsRunnerStep(s, e);
    var t := Step(s, e).r;
    if t != s.r {
      var re :| t == Runner.Step(s.r, re);
      RunnerKeepsInv(s.r, re);
    }
  }

  lemma {:induction false} RunKeepsChatInv(repo: bool, es: seq<Event>)
    ensures ChatInv(Exec(Init(repo), es))
  {
    if es == [] {
      FreshRunner(repo);
    } else {
      var s := Exec(Init(repo), es[..|es| - 1]);
      RunKeepsChatInv(repo, es[..|es| - 1]);
      StepKeepsRunner(s, es[|es| - 1]);
      StepKeepsDealt(s, es[|es| - 1]);
    }
  }

  /** In every run at most one consumer iterates the Gemini stream. */
  lemma {:induction false} SingleReceiver(repo: bool, es: seq<Event>)
    ensures ActiveReceivers(Exec(Init(repo), es).r) <= 1
  {
    RunKeepsChatInv(repo, es);
    AtMostOneActive(Exec(Init(repo), es).r);
  }

  /**
   * What is sent to Gemini is an order-preserving subsequence of what was offered to the
   * inbox; of the voice frames the runner took, none is lost or repeated.
   */
  lemma {:induction false} ClientToGemini(repo: bool, es: seq<Event>)
    ensures var s := Exec(Init(repo), es);
            && Subsequence(s.r.io.sent, s.r.io.inbox.offered)
            && Filter(IsVoice, s.r.io.sent + Pending(s.r.pc)) == Filter(IsVoice, s.r.io.inbox.taken)
            && s.r.speaker == LastSpeaker(s.r.io.inbox.taken)
  {
    RunKeepsChatInv(repo, es);
    var s := Exec(Init(repo), es);
    LossyFifo(s.r.io.inbox);
    SubsequencePrefix(s.r.io.inbox.taken, s.r.io.inbox.waiting, s.r.io.inbox.offered);
    SubsequencePrefix(s.r.io.sent, Pending(s.r.pc), s.r.io.inbox.taken);
    SubsequenceTrans(s.r.io.sent, s.r.io.inbox.taken, s.r.io.inbox.offered);
  }

  /**
   * Both queues account for every frame, drops happen only at 512 and 256 waiting frames, and
   * what any one forward loop delivers is an order-preserving subsequence of what was offered;
   * every frame taken went to exactly one loop.
   */
  lemma {:induction false} FramesAccountedFor(repo: bool, es: seq<Event>, c: nat)
    ensures var s := Exec(Init(repo), es);
            && Queues(s.r) && DealtOut(s) && s.r.io.inbox.cap == 512 && s.r.io.outbox.cap == 256
            && |s.r.io.outbox.offered| == |FramesOf(s.pops)| + |s.r.io.outbox.waiting| + Dropped(s.r.io.outbox)
            && |s.r.io.inbox.offered| == |s.r.io.inbox.taken| + |s.r.io.inbox.waiting| + Dropped(s.r.io.inbox)
            && Subsequence(FramesBy(s.pops, c), s.r.io.outbox.offered)
            && (c in s.forwarders ==> Subsequence(s.forwarders[c].delivered, s.r.io.outbox.offered))
  {
    RunKeepsChatInv(repo, es);
    var s := Exec(Init(repo), es);
    var q := s.r.io.outbox;
    LossyFifo(q);
    LossyFifo(s.r.io.inbox);
    SubsequencePrefix(q.taken, q.waiting, q.offered);
    FramesBySubsequence(s.pops, c);
    SubsequenceTrans(FramesBy(s.pops, c), q.taken, q.offered);
    if c in s.forwarders {
      assert FramesBy(s.pops, c) == s.forwarders[c].delivered + Held(s.forwarders[c].phase);
      SubsequencePrefix(s.forwarders[c].delivered, Held(s.forwarders[c].phase), q.offered);
    }
  }

  /** The finals carry the runner's counters and status. */
  ghost predicate FinalsAgree(r: Runner.Runner) {
    forall f :: f in r.finals ==>
      f.turns == r.tally.turns && f.toolCalls == r.tally.toolCalls && f.status == r.status
  }

  lemma ShutdownFinalsAgree(r: Runner.Runner)
    requires Shutdown(r)
    ensures FinalsAgree(r)
  {
  }

  /**
   * At every suspension point `turns` and `tool_calls` are the numbers of turn_complete and
   * tool_call frames ever offered, `turns` is also the number of consumer activations that
   * returned True, and the record and the closed event carry those same numbers.  The status
   * they carry is Error exactly if the one session error frame was offered.
   */
  lemma {:induction false} CountersAgreeWithHistory(repo: bool, es: seq<Event>)
    ensures var r := Exec(Init(repo), es).r; Counters(r) && FinalsAgree(r)
  {
    RunKeepsChatInv(repo, es);
    ShutdownFinalsAgree(Exec(Init(repo), es).r);
  }

  /** The runner is cancelled before its `try`, or inside its `finally`. */
  ghost predicate Cuts(s: Chat, e: Event) {
    (s.r.pc.NotStarted? || s.r.pc.Recording?) && e == Run(Runner.Life(Runner.Cancel))
  }

  /** Some event of the run cut the runner short. */
  ghost predicate CutShort(repo: bool, es: seq<Event>) {
    es != [] && (CutShort(repo, es[..|es| - 1]) || Cuts(Exec(Init(repo), es[..|es| - 1]), es[|es| - 1]))
  }

  lemma LifeEnds(r: Runner.Runner, e: Runner.LifeEvent)
    ensures var pc := Runner.LifeStep(r, e).pc;
            && (r.pc.Done? ==> pc == r.pc)
            && (e.Cancel? && (r.pc.NotStarted? || r.pc.Recording?) ==> pc == Runner.Done(false))
            && (pc == Runner.Done(false) && pc != r.pc ==> e.Cancel? && (r.pc.NotStarted? || r.pc.Recording?))
  {
  }

  lemma LoopEndsNothing(r: Runner.Runner, e: Runner.LoopEvent)
    ensures Runner.LoopStep(r, e).pc.Done? <==> r.pc.Done?
    ensures r.pc.Done? ==> Runner.LoopStep(r, e).pc == r.pc
  {
  }

  lemma SendEndsNothing(r: Runner.Runner, e: Runner.SendEvent)
    ensures Runner.SendStep(r, e).pc.Done? <==> r.pc.Done?
    ensures r.pc.Done? ==> Runner.SendStep(r, e).pc == r.pc
  {
  }

  /** A runner ends cut short by a cancellation before `try` or inside `finally`, and by nothing else. */
  lemma StepCuts(s: Chat, e: Event)
    ensures Step(s, e).r.pc == Runner.Done(false) <==> s.r.pc == Runner.Done(false) || Cuts(s, e)
  {
    match e {
      case Run(re) =>
        match re {
          case Life(l) => LifeEnds(s.r, l);
          case Loop(l) => LoopEndsNothing(s.r, l);
          case Send(d) => SendEndsNothing(s.r, d);
          case _ =>
        }
      case _ =>
    }
  }

  /** In every run, the runner has ended without finishing its `finally` exactly if it was cut short. */
  lemma {:induction false} CutShortIff(repo: bool, es: seq<Event>)
    ensures Exec(Init(repo), es).r.pc == Runner.Done(false) <==> CutShort(repo, es)
  {
    if es != [] {
      var before := es[..|es| - 1];
      CutShortIff(repo, before);
      StepCuts(Exec(Init(repo), before), es[|es| - 1]);
    }
  }

  /** One record-write attempt if a repository is wired in, one closed event, then the last two offers. */
  ghost predicate OrderlyEnd(r: Runner.Runner) {
    var out := r.io.outbox.offered;
    var n := |out|;
    && n >= 2 && out[n - 2] == SessionEnded && out[n - 1] == OutboxStop && NoEnding(out[..n - 2])
    && r.finals == (if r.repo then [Now(r, Runner.RecordWrite, n - 2)] else []) + [Now(r, Runner.ClosedEvent, n - 2)]
    && (OutboxStop in r.io.outbox.taken + r.io.outbox.waiting <==> WaitingAtEnd(r) + 2 <= OUTBOX_MAX_SIZE)
  }

  /** At most the record write was attempted, and neither ending was offered. */
  ghost predicate CutEnd(r: Runner.Runner) {
    && NoEnding(r.io.outbox.offered)
    && (r.finals == [] || r.finals == [Now(r, Runner.RecordWrite, |r.io.outbox.offered|)])
  }

  /**
   * A runner that has ended, and was not cancelled before its `try` or inside its `finally`, has
   * made one record-write attempt (when a repository is wired in) and then one closed-event
   * delivery, with session_ended and the stop sentinel as its last two offers and nothing offered
   * between any of the four; the sentinel got in exactly when two slots were free.  One that was
   * cut short has made at most the record-write attempt, and one that has not ended no offer of either.
   */
  lemma {:induction false} ShutdownOrder(repo: bool, es: seq<Event>)
    ensures var r := Exec(Init(repo), es).r;
            && (r.pc.Done? && !CutShort(repo, es) ==> OrderlyEnd(r))
            && (CutShort(repo, es) ==> r.pc.Done? && CutEnd(r))
            && (!r.pc.Done? ==> CutEnd(r))
  {
    RunKeepsChatInv(repo, es);
    CutShortIff(repo, es);
    var r := Exec(Init(repo), es).r;
    if r.pc == Runner.Done(true) { SentinelAccepted(r); }
    ShutdownEnds(r);
  }

  lemma ShutdownEnds(r: Runner.Runner)
    requires Shutdown(r)
    requires r.pc == Runner.Done(true) ==>
               (OutboxStop in r.io.outbox.taken + r.io.outbox.waiting <==> WaitingAtEnd(r) + 2 <= OUTBOX_MAX_SIZE)
    ensures r.pc == Runner.Done(true) ==> OrderlyEnd(r)
    ensures r.pc != Runner.Done(true) ==> CutEnd(r)
  {
  }
}
