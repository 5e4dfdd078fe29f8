/** What the runner does with the frames of its inbox, and the fate of its offers. */
module RunnerDelivery {
  import opened Prelude
  import opened BoundedQueue
  import opened Session
  import opened Consumer
  import opened Runner
  import opened RunnerProofs

  ghost predicate IsVoice(f: InputFrame) { f.ActivityStart? || f.AudioChunk? || f.ActivityEnd? }

  /** The frame that was taken but whose send has to wait for the old receiver. */
  ghost function Pending(pc: Pc): seq<InputFrame> {
    if pc.AwaitOldReceiver? then [ActivityStart] else []
  }

  /** The value of the last set_speaker frame, False before the first. */
  ghost function LastSpeaker(taken: seq<InputFrame>): bool {
    if taken == [] then false
    else
      var last := taken[|taken| - 1];
      if last.SetSpeaker? then last.enabled else LastSpeaker(taken[..|taken| - 1])
  }

  /**
   * Every voice frame taken from the inbox is sent exactly once and in order, every send is a
   * frame taken, in order, and the speaker flag is the last one taken.
   */
  ghost predicate InOrder(r: Runner) {
    && Filter(IsVoice, r.io.sent + Pending(r.pc)) == Filter(IsVoice, r.io.inbox.taken)
    && Subsequence(r.io.sent + Pending(r.pc), r.io.inbox.taken)
    && r.speaker == LastSpeaker(r.io.inbox.taken)
  }

  ghost predicate Queues(r: Runner) {
    && r.io.inbox.cap == INBOX_MAX_SIZE && Accounted(r.io.inbox)
    && r.io.outbox.cap == OUTBOX_MAX_SIZE && Accounted(r.io.outbox)
  }

  lemma TakeOne(taken: seq<InputFrame>, f: InputFrame)
    ensures Filter(IsVoice, taken + [f]) == Filter(IsVoice, taken) + if IsVoice(f) then [f] else []
    ensures LastSpeaker(taken + [f]) == if f.SetSpeaker? then f.enabled else LastSpeaker(taken)
  {
    FilterSnoc(IsVoice, taken, f);
    assert (taken + [f])[..|taken|] == taken;
  }

  /** A popped voice frame is always sent (at once or after the old receiver), a text unless a receiver is live. */
  ghost predicate IsWanted(r: Runner, f: InputFrame) {
    IsVoice(f) || (f.Text? && !ReceiverLive(r.recv))
  }

  lemma DispatchSends(r: Runner, f: InputFrame)
    requires r.pc.Idle?
    ensures var s := Dispatch(r, f);
            && s.io.inbox == r.io.inbox
            && s.speaker == (if f.SetSpeaker? then f.enabled else r.speaker)
            && s.io.sent + Pending(s.pc) == r.io.sent + (if IsWanted(r, f) then [f] else [])
  {
  }

  lemma DispatchKeepsOrder(r: Runner, q: Queue<InputFrame>)
    requires InOrder(r) && r.pc.Idle? && r.io.inbox == q && q.waiting != []
    ensures InOrder(Dispatch(r.(io := r.io.(inbox := Take(q))), q.waiting[0]))
  {
    var f := q.waiting[0];
    assert r.io.sent + Pending(r.pc) == r.io.sent && r.io.sent + [] == r.io.sent;
    TakeOne(q.taken, f);
    FilterSnoc(IsVoice, r.io.sent, f);
    SubsequenceKeep(r.io.sent, q.taken, f);
    SubsequenceSkip(r.io.sent, q.taken, f);
    DispatchSends(r.(io := r.io.(inbox := Take(q))), f);
  }

  lemma StepKeepsOrder(r: Runner, e: Event)
    requires InOrder(r)
    ensures InOrder(Step(r, e))
  {
    match e {
      case Loop(l) =>
        if l.Pop? && r.pc.Idle? && r.io.inbox.waiting != [] {
          DispatchKeepsOrder(r, r.io.inbox);
        } else {
          LoopWithoutPop(r, l);
        }
      case _ => RestKeepsSends(r, e);
    }
  }

  lemma LoopWithoutPop(r: Runner, l: LoopEvent)
    requires !l.Pop? || !r.pc.Idle? || r.io.inbox.waiting == []
    ensures var s := LoopStep(r, l);
            && s.io.sent + Pending(s.pc) == r.io.sent + Pending(r.pc)
            && s.io.inbox == r.io.inbox && s.speaker == r.speaker
  {
  }

  /** Nothing is sent, taken or toggled. */
  ghost predicate SameSends(r: Runner, s: Runner) {
    && s.io.sent + Pending(s.pc) == r.io.sent + Pending(r.pc)
    && s.io.inbox.taken == r.io.inbox.taken && s.speaker == r.speaker
  }

  lemma LifeKeepsSends(r: Runner, e: LifeEvent)
    ensures SameSends(r, LifeStep(r, e))
  {
  }

  lemma SendKeepsSends(r: Runner, e: SendEvent)
    ensures SameSends(r, SendStep(r, e))
  {
  }

  lemma RestKeepsSends(r: Runner, e: Event)
    requires !e.Loop?
    ensures SameSends(r, Step(r, e))
  {
    match e {
      case Life(l) => LifeKeepsSends(r, l);
      case Send(d) => SendKeepsSends(r, d);
      case _ =>
    }
  }

  // ---- Queue accounting ------------------------------------------------------------------

  /** Everything a step does to the two queues. */
  ghost predicate Moves(p: Io, q: Io) {
    && (q.inbox == p.inbox || (p.inbox.waiting != [] && q.inbox == Take(p.inbox))
        || exists f :: q.inbox == Put(p.inbox, f))
    && (q.outbox == p.outbox || (p.outbox.waiting != [] && q.outbox == Take(p.outbox))
        || exists fs :: q.outbox == PutAll(p.outbox, fs))
  }

  lemma MovesKeepQueues(p: Io, q: Io)
    requires Moves(p, q) && Accounted(p.inbox) && Accounted(p.outbox)
    ensures Accounted(q.inbox) && Accounted(q.outbox)
    ensures q.inbox.cap == p.inbox.cap && q.outbox.cap == p.outbox.cap
  {
    if p.inbox.waiting != [] && q.inbox == Take(p.inbox) {
      TakeKeepsAccounted(p.inbox);
    } else if q.inbox != p.inbox {
      var f :| q.inbox == Put(p.inbox, f);
      PutKeepsAccounted(p.inbox, f);
    }
    if p.outbox.waiting != [] && q.outbox == Take(p.outbox) {
      TakeKeepsAccounted(p.outbox);
    } else if q.outbox != p.outbox {
      var fs :| q.outbox == PutAll(p.outbox, fs);
      PutAllEffect(p.outbox, fs);
    }
  }

  lemma OfferMoves(q: Queue<OutFrame>, f: OutFrame)
    ensures Put(q, f) == PutAll(q, [f])
  {
    assert [f][..0] == [];
  }

  lemma OfferTwice(q: Queue<OutFrame>, f: OutFrame, g: OutFrame)
    ensures Put(Put(q, f), g) == PutAll(q, [f, g])
  {
    OfferMoves(q, f);
    assert [f, g][..1] == [f];
  }

  lemma FinallyMoves(r: Runner, status: Status)
    ensures Moves(r.io, EnterFinally(r, status).io)
    ensures var s := EnterFinally(Offer(r, ErrorFrame(WholeSession)), Error); Moves(r.io, s.io)
  {
    var q := r.io.outbox;
    OfferTwice(q, SessionEnded, OutboxStop);
    OfferMoves(q, ErrorFrame(WholeSession));
    OfferTwice(q, ErrorFrame(WholeSession), SessionEnded);
    assert [ErrorFrame(WholeSession), SessionEnded, OutboxStop][..2] == [ErrorFrame(WholeSession), SessionEnded];
    assert Put(Put(Put(q, ErrorFrame(WholeSession)), SessionEnded), OutboxStop)
        == PutAll(q, [ErrorFrame(WholeSession), SessionEnded, OutboxStop]);
  }

  lemma CancelMoves(r: Runner)
    ensures Moves(r.io, CancelRunner(r).io)
  {
    match r.pc {
      case Connecting => FinallyMoves(r, Closed);
      case Leaving(_) => FinallyMoves(r, Closed);
      case _ =>
    }
  }

  lemma LifeMoves(r: Runner, e: LifeEvent)
    ensures Moves(r.io, LifeStep(r, e).io)
  {
    match e {
      case Begin =>
      case Connected => OfferMoves(r.io.outbox, SessionReady(r.speaker));
      case ConnectFailed => FinallyMoves(r, Error);
      case Cancel => CancelMoves(r);
      case Left(ok) => FinallyMoves(r, if r.pc.Leaving? && r.pc.cancelled then Closed else r.status);
      case RecordDone => OfferTwice(r.io.outbox, SessionEnded, OutboxStop);
    }
  }

  lemma LoopMoves(r: Runner, e: LoopEvent)
    ensures Moves(r.io, LoopStep(r, e).io)
  {
    if e.Pop? && r.pc.Idle? && r.io.inbox.waiting != [] {
      var f := r.io.inbox.waiting[0];
      if f.SetSpeaker? { OfferMoves(r.io.outbox, SpeakerModeUpdated(f.enabled)); }
    } else if e.InlineWake? && r.pc.Consuming? && Fits(r.pc.spot, e.wake) {
      assert LoopStep(r, e).io.outbox == PutAll(r.io.outbox, Resume(r.pc.spot, e.wake, r.speaker).offers);
    }
  }

  lemma SendMoves(r: Runner, e: SendEvent)
    ensures Moves(r.io, SendStep(r, e).io)
  {
    OfferMoves(r.io.outbox, ErrorFrame(StartingActivity));
    OfferMoves(r.io.outbox, ErrorFrame(EndingActivity));
    OfferMoves(r.io.outbox, ErrorFrame(SendingUserText));
  }

  lemma TaskMoves(r: Runner, i: nat, e: TaskEvent)
    ensures Moves(r.io, TaskStep(r, i, e).io)
  {
    if i < |r.recv.tasks| && r.recv.tasks[i].Live? {
      var t := r.recv.tasks[i];
      if e.Woken? && !t.cancelled && Fits(t.spot, e.wake) {
        assert TaskStep(r, i, e).io.outbox == PutAll(r.io.outbox, Resume(t.spot, e.wake, r.speaker).offers);
      }
    }
  }

  lemma StepKeepsQueues(r: Runner, e: Event)
    requires Queues(r)
    ensures Queues(Step(r, e))
  {
    match e {
      case Outside(o) =>
      case Life(l) => LifeMoves(r, l);
      case Loop(l) => LoopMoves(r, l);
      case Send(d) => SendMoves(r, d);
      case Background(i, t) => TaskMoves(r, i, t);
    }
    MovesKeepQueues(r.io, Step(r, e).io);
  }

  // ---- After the session has ended -------------------------------------------------------

  /** Once in `finally`, only its own last two offers can still be made; nothing else counts. */
  lemma SilentInFinally(r: Runner, e: Event)
    requires Tracked(r.pc, r.recv) && InFinally(r.pc) && e != Life(RecordDone)
    ensures var s := Step(r, e);
            && InFinally(s.pc) && (s.pc == r.pc || s.pc == Done(false))
            && s.io.outbox.offered == r.io.outbox.offered && s.io.outbox.depths == r.io.outbox.depths
            && s.io.sent == r.io.sent && s.tally == r.tally && s.finals == r.finals
  {
  }

  /** The sentinel is offered right behind session_ended, with nothing taken in between. */
  ghost predicate BackToBack(r: Runner) {
    var d := r.io.outbox.depths;
    r.pc == Done(true) ==>
      && |d| >= 2
      && d[|d| - 1] == if d[|d| - 2] < r.io.outbox.cap then d[|d| - 2] + 1 else d[|d| - 2]
  }

  lemma FinishBackToBack(r: Runner)
    ensures BackToBack(Finish(r))
  {
    var q := r.io.outbox;
    var d := Put(Put(q, SessionEnded), OutboxStop).depths;
    assert d == q.depths + [|q.waiting|] + [|Put(q, SessionEnded).waiting|];
  }

  lemma FinallyBackToBack(r: Runner, status: Status)
    ensures BackToBack(EnterFinally(r, status))
  {
    if !r.repo { FinishBackToBack(r.(recv := CancelReceiver(r.recv), status := status)); }
  }

  lemma LifeKeepsBackToBack(r: Runner, e: LifeEvent)
    requires BackToBack(r)
    ensures BackToBack(LifeStep(r, e))
  {
    match e {
      case ConnectFailed => FinallyBackToBack(Offer(r, ErrorFrame(WholeSession)), Error);
      case Cancel =>
        match r.pc {
          case Connecting => FinallyBackToBack(r, Closed);
          case Leaving(_) => FinallyBackToBack(r, Closed);
          case _ =>
        }
      case Left(ok) =>
        if ok { FinallyBackToBack(r, if r.pc.Leaving? && r.pc.cancelled then Closed else r.status); }
        else { FinallyBackToBack(Offer(r, ErrorFrame(WholeSession)), Error); }
      case RecordDone => FinishBackToBack(r);
      case _ =>
    }
  }

  lemma LoopNeverFinishes(r: Runner, e: LoopEvent)
    requires r.pc != Done(true)
    ensures LoopStep(r, e).pc != Done(true)
  {
  }

  lemma StepKeepsBackToBack(r: Runner, e: Event)
    requires Tracked(r.pc, r.recv) && BackToBack(r)
    ensures BackToBack(Step(r, e))
  {
    if InFinally(r.pc) && e != Life(RecordDone) {
      SilentInFinally(r, e);
      QueueCapKept(r, e);
    } else {
      match e {
        case Life(l) => LifeKeepsBackToBack(r, l);
        case Loop(l) => LoopNeverFinishes(r, l);
        case _ =>
      }
    }
  }

  lemma QueueCapKept(r: Runner, e: Event)
    requires Tracked(r.pc, r.recv) && InFinally(r.pc) && e != Life(RecordDone)
    ensures Step(r, e).io.outbox.cap == r.io.outbox.cap
  {
  }

  lemma {:induction false} AcceptedIsOffered<T>(offered: seq<T>, depths: seq<nat>, cap: nat, x: T)
    requires |offered| == |depths| && x !in offered
    ensures x !in Accepted(offered, depths, cap)
  {
    if offered != [] {
      AcceptedIsOffered(offered[..|offered| - 1], depths[..|offered| - 1], cap, x);
    }
  }

  /** How many frames waited when `finally` made its last two offers. */
  ghost function WaitingAtEnd(r: Runner): nat {
    var d := r.io.outbox.depths;
    if |d| < 2 then 0 else d[|d| - 2]
  }

  /**
   * After an orderly shutdown the stop sentinel has got into the outbox exactly when two slots
   * were free, and then it is the last frame a forward loop can ever take from it.
   */
  lemma SentinelAccepted(r: Runner)
    requires r.pc == Done(true) && Queues(r) && BackToBack(r) && Shutdown(r)
    ensures var q := r.io.outbox;
            && (OutboxStop in q.taken + q.waiting <==> WaitingAtEnd(r) + 2 <= OUTBOX_MAX_SIZE)
            && (OutboxStop in q.taken + q.waiting ==>
                  exists before :: OutboxStop !in before && q.taken + q.waiting == before + [OutboxStop])
  {
    var q := r.io.outbox;
    var n := |q.offered|;
    var out, d := q.offered[..n - 2], q.depths[..n - 2];
    assert q.offered[..n - 1][..n - 2] == out && q.depths[..n - 1][..n - 2] == d;
    assert OutboxStop !in out;
    AcceptedIsOffered(out, d, q.cap, OutboxStop);
    var before := Accepted(q.offered[..n - 1], q.depths[..n - 1], q.cap);
    assert before == Accepted(out, d, q.cap) + if q.depths[n - 2] < q.cap then [SessionEnded] else [];
    assert OutboxStop !in before;
    assert q.taken + q.waiting == before + if q.depths[n - 1] < q.cap then [OutboxStop] else [];
    if q.depths[n - 1] < q.cap {
      assert (before + [OutboxStop])[|before|] == OutboxStop;
    }
  }
}
