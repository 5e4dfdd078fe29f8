/** Invariants of the session runner over every run. */
module RunnerProofs {
  import opened Prelude
  import opened BoundedQueue
  import opened Session
  import opened Consumer
  import opened Runner

  // ---- One receiver --------------------------------------------------------------------

  ghost predicate AllCancelled(b: Receivers) {
    forall i :: 0 <= i < |b.tasks| && b.tasks[i].Live? ==> b.tasks[i].cancelled
  }

  /** No live task but the one _recv_task refers to. */
  ghost predicate OnlyCurrent(b: Receivers) {
    && (b.current.Some? ==> b.current.value < |b.tasks|)
    && forall i :: 0 <= i < |b.tasks| && b.tasks[i].Live? ==> b.current == Some(i) && GoodSpot(b.tasks[i].spot)
  }

  /** Live tasks are bound to _recv_task, and what the program counter says about them. */
  ghost predicate Tracked(pc: Pc, b: Receivers) {
    && OnlyCurrent(b)
    && (pc.Consuming? ==> GoodSpot(pc.spot))
    && (pc.Consuming? || pc.SendingText? || pc.SendingStart? ==> !ReceiverLive(b))
    && (pc.AwaitReceiver? || pc.AwaitOldReceiver? ==> b.current.Some?)
    && (pc.AwaitOldReceiver? || pc.Recording? || pc.Done? ==> AllCancelled(b))
    && (pc.NotStarted? || pc.Connecting? ==> b == Receivers([], None))
  }

  /** The consumers that are iterating the Gemini stream. */
  ghost function ActiveReceivers(r: Runner): nat {
    |set i | 0 <= i < |r.recv.tasks| && r.recv.tasks[i].Live?| + if r.pc.Consuming? then 1 else 0
  }

  lemma CancelReceiverEffect(b: Receivers)
    requires OnlyCurrent(b)
    ensures var c := CancelReceiver(b);
            OnlyCurrent(c) && AllCancelled(c) && c.current == b.current && ReceiverLive(c) == ReceiverLive(b)
  {
  }

  lemma FinallyKeepsTracked(r: Runner, status: Status)
    requires Tracked(r.pc, r.recv)
    ensures var s := EnterFinally(r, status); Tracked(s.pc, s.recv)
  {
    CancelReceiverEffect(r.recv);
  }

  lemma CancelKeepsTracked(r: Runner)
    requires Tracked(r.pc, r.recv)
    ensures var s := CancelRunner(r); Tracked(s.pc, s.recv)
  {
    if r.pc.Connecting? || r.pc.Leaving? {
      FinallyKeepsTracked(r, Closed);
      assert CancelRunner(r) == EnterFinally(r, Closed);
    } else if r.pc.AwaitReceiver? {
      CancelReceiverEffect(r.recv);
    }
  }

  lemma LifeKeepsTracked(r: Runner, e: LifeEvent)
    requires Tracked(r.pc, r.recv)
    ensures var s := LifeStep(r, e); Tracked(s.pc, s.recv)
  {
    match e {
      case ConnectFailed => FinallyKeepsTracked(Offer(r, ErrorFrame(WholeSession)), Error);
      case Cancel => CancelKeepsTracked(r);
      case Left(ok) =>
        if ok { FinallyKeepsTracked(r, if r.pc.Leaving? && r.pc.cancelled then Closed else r.status); }
        else { FinallyKeepsTracked(Offer(r, ErrorFrame(WholeSession)), Error); }
      case _ =>
    }
  }

  lemma DispatchKeepsTracked(r: Runner, frame: InputFrame)
    requires Tracked(r.pc, r.recv) && r.pc.Idle?
    ensures var s := Dispatch(r, frame); Tracked(s.pc, s.recv)
  {
    CancelReceiverEffect(r.recv);
  }

  /** An awaited receiver has gone. */
  lemma AwaitKeepsTracked(r: Runner, e: LoopEvent)
    requires Tracked(r.pc, r.recv) && (e.OldReceiverGone? || e.ReceiverDone?)
    ensures var s := LoopStep(r, e); Tracked(s.pc, s.recv)
  {
  }

  lemma InlineKeepsTracked(r: Runner, wake: Wake)
    requires Tracked(r.pc, r.recv) && r.pc.Consuming? && Fits(r.pc.spot, wake)
    ensures var s := InlineStep(r, wake); Tracked(s.pc, s.recv)
  {
    ResumeKeepsGoodSpot(r.pc.spot, wake, r.speaker);
  }

  lemma LoopKeepsTracked(r: Runner, e: LoopEvent)
    requires Tracked(r.pc, r.recv)
    ensures var s := LoopStep(r, e); Tracked(s.pc, s.recv)
  {
    match e {
      case Pop =>
        if r.pc.Idle? && r.io.inbox.waiting != [] {
          DispatchKeepsTracked(r.(io := r.io.(inbox := Take(r.io.inbox))), r.io.inbox.waiting[0]);
        }
      case InlineWake(wake) => if r.pc.Consuming? && Fits(r.pc.spot, wake) { InlineKeepsTracked(r, wake); }
      case IdleTimeout =>
      case _ => AwaitKeepsTracked(r, e);
    }
  }

  /** A new receiver becomes the current one when none is live. */
  lemma StartedIsTracked(b: Receivers)
    requires OnlyCurrent(b) && !ReceiverLive(b)
    ensures OnlyCurrent(Receivers(b.tasks + [Live(AtReceive, false)], Some(|b.tasks|)))
  {
    assert forall i :: 0 <= i < |b.tasks| ==> !b.tasks[i].Live?;
  }

  lemma SendKeepsTracked(r: Runner, e: SendEvent)
    requires Tracked(r.pc, r.recv)
    ensures var s := SendStep(r, e); Tracked(s.pc, s.recv)
  {
    match e {
      case StartSent(ok) => if r.pc.SendingStart? { StartedIsTracked(r.recv); }
      case AudioSent(_) =>
      case EndSent(_) =>
      case TextSent(_) =>
    }
  }

  lemma TaskKeepsTracked(r: Runner, i: nat, e: TaskEvent)
    requires Tracked(r.pc, r.recv)
    ensures var s := TaskStep(r, i, e); Tracked(s.pc, s.recv)
  {
    if e.Woken? && i < |r.recv.tasks| && r.recv.tasks[i].Live? && Fits(r.recv.tasks[i].spot, e.wake) {
      ResumeKeepsGoodSpot(r.recv.tasks[i].spot, e.wake, r.speaker);
    }
  }

  lemma StepKeepsTracked(r: Runner, e: Event)
    requires Tracked(r.pc, r.recv)
    ensures var s := Step(r, e); Tracked(s.pc, s.recv)
  {
    match e {
      case Outside(o) =>
      case Life(l) => LifeKeepsTracked(r, l);
      case Loop(l) => LoopKeepsTracked(r, l);
      case Send(d) => SendKeepsTracked(r, d);
      case Background(i, t) => TaskKeepsTracked(r, i, t);
    }
  }

  lemma AtMostOneActive(r: Runner)
    requires Tracked(r.pc, r.recv)
    ensures ActiveReceivers(r) <= 1
  {
    var live := set i | 0 <= i < |r.recv.tasks| && r.recv.tasks[i].Live?;
    if live != {} {
      var j :| j in live;
      assert live == {j};
      assert ReceiverLive(r.recv);
    }
  }

  // ---- Counters and shutdown -------------------------------------------------------------

  ghost predicate ReturnedAlive(t: Task) { t == Ended(ReturnedTrue) }

  ghost predicate InFinally(pc: Pc) { pc.Recording? || pc.Done? }

  ghost predicate NoEnding(xs: seq<OutFrame>) {
    forall i :: 0 <= i < |xs| ==> !IsEnding(xs[i])
  }

  /** The counters are the numbers of frames ever offered, and of activations that returned True. */
  ghost predicate Tallied(t: Tally, out: seq<OutFrame>, tasks: seq<Task>) {
    && t.turns == Count(IsTurn, out)
    && t.toolCalls == Count(IsTool, out)
    && t.turns == Count(ReturnedAlive, tasks) + t.inlineTurns
  }

  /** ... and the status is Error only in `finally`, after one session error was offered. */
  ghost predicate Counters(r: Runner) {
    && Tallied(r.tally, r.io.outbox.offered, r.recv.tasks)
    && (!InFinally(r.pc) ==> r.status != Error)
    && Count(IsFatal, r.io.outbox.offered) == (if InFinally(r.pc) && r.status == Error then 1 else 0)
  }

  /** The final with the runner's present status and counters. */
  ghost function Now(r: Runner, kind: FinalKind, offers: nat): Final {
    Final(kind, r.status, r.tally.turns, r.tally.toolCalls, offers)
  }

  /** What shutdown has done at each point of the runner's life. */
  ghost predicate Shutdown(r: Runner) {
    var out := r.io.outbox.offered;
    var n := |out|;
    match r.pc
    case Done(clean) =>
      if clean then
        && n >= 2 && out[n - 2] == SessionEnded && out[n - 1] == OutboxStop && NoEnding(out[..n - 2])
        && r.finals == (if r.repo then [Now(r, RecordWrite, n - 2)] else []) + [Now(r, ClosedEvent, n - 2)]
      else NoEnding(out) && (r.finals == [] || r.finals == [Now(r, RecordWrite, n)])
    case Recording => NoEnding(out) && r.repo && r.finals == [Now(r, RecordWrite, n)]
    case _ => NoEnding(out) && r.finals == []
  }

  /** An offer that is neither counted nor an ending. */
  lemma PlainOffer(out: seq<OutFrame>, f: OutFrame)
    requires !IsTurn(f) && !IsTool(f)
    ensures Count(IsTurn, out + [f]) == Count(IsTurn, out)
    ensures Count(IsTool, out + [f]) == Count(IsTool, out)
    ensures Count(IsFatal, out + [f]) == Count(IsFatal, out) + if IsFatal(f) then 1 else 0
    ensures NoEnding(out) && !IsEnding(f) ==> NoEnding(out + [f])
  {
    CountSnoc(IsTurn, out, f);
    CountSnoc(IsTool, out, f);
    CountSnoc(IsFatal, out, f);
  }

  /** What the invariants say of a runner that has not reached `finally`. */
  ghost predicate Busy(status: Status, t: Tally, out: seq<OutFrame>, tasks: seq<Task>, finals: seq<Final>) {
    Tallied(t, out, tasks) && status != Error && Count(IsFatal, out) == 0 && NoEnding(out) && finals == []
  }

  lemma BusyIff(r: Runner)
    requires !InFinally(r.pc)
    ensures Counters(r) && Shutdown(r) <==> Busy(r.status, r.tally, r.io.outbox.offered, r.recv.tasks, r.finals)
  {
  }

  /** At most one plain frame is offered, and no activation returns. */
  ghost predicate Plain(r: Runner, s: Runner, f: Option<OutFrame>) {
    && s.status != Error && s.tally == r.tally && s.finals == r.finals
    && Count(ReturnedAlive, s.recv.tasks) == Count(ReturnedAlive, r.recv.tasks)
    && s.io.outbox.offered == r.io.outbox.offered + (if f.Some? then [f.value] else [])
    && (f.Some? ==> !IsTurn(f.value) && !IsTool(f.value) && !IsFatal(f.value) && !IsEnding(f.value))
  }

  lemma PlainKeepsShutdown(r: Runner, s: Runner, f: Option<OutFrame>)
    requires Counters(r) && Shutdown(r) && !InFinally(r.pc) && !InFinally(s.pc) && Plain(r, s, f)
    ensures Counters(s) && Shutdown(s)
  {
    BusyIff(r);
    BusyIff(s);
    var out := r.io.outbox.offered;
    if f.Some? { PlainOffer(out, f.value); } else { assert out + [] == out; }
  }

  lemma CancelReceiverKeepsAlive(b: Receivers)
    ensures Count(ReturnedAlive, CancelReceiver(b).tasks) == Count(ReturnedAlive, b.tasks)
  {
    if ReceiverLive(b) {
      CountUpdate(ReturnedAlive, b.tasks, b.current.value, b.tasks[b.current.value].(cancelled := true));
    }
  }

  lemma EndingOffers(out: seq<OutFrame>)
    ensures var all := out + [SessionEnded] + [OutboxStop];
            && all[..|all| - 2] == out && all[|all| - 2] == SessionEnded && all[|all| - 1] == OutboxStop
            && Count(IsTurn, all) == Count(IsTurn, out)
            && Count(IsTool, all) == Count(IsTool, out)
            && Count(IsFatal, all) == Count(IsFatal, out)
  {
    PlainOffer(out, SessionEnded);
    PlainOffer(out + [SessionEnded], OutboxStop);
  }

  lemma FinishShutsDown(r: Runner)
    requires NoEnding(r.io.outbox.offered) && Tallied(r.tally, r.io.outbox.offered, r.recv.tasks)
    requires Count(IsFatal, r.io.outbox.offered) == if r.status == Error then 1 else 0
    requires r.finals == if r.repo then [Now(r, RecordWrite, |r.io.outbox.offered|)] else []
    ensures Counters(Finish(r)) && Shutdown(Finish(r))
  {
    EndingOffers(r.io.outbox.offered);
  }

  lemma FinallyShutsDown(r: Runner, status: Status)
    requires NoEnding(r.io.outbox.offered) && r.finals == []
    requires Tallied(r.tally, r.io.outbox.offered, r.recv.tasks)
    requires Count(IsFatal, r.io.outbox.offered) == if status == Error then 1 else 0
    ensures Counters(EnterFinally(r, status)) && Shutdown(EnterFinally(r, status))
  {
    CancelReceiverKeepsAlive(r.recv);
    if !r.repo {
      FinishShutsDown(r.(recv := CancelReceiver(r.recv), status := status));
    }
  }

  lemma FatalShutsDown(r: Runner)
    requires Counters(r) && Shutdown(r) && !InFinally(r.pc)
    ensures var s := EnterFinally(Offer(r, ErrorFrame(WholeSession)), Error); Counters(s) && Shutdown(s)
  {
    PlainOffer(r.io.outbox.offered, ErrorFrame(WholeSession));
    FinallyShutsDown(Offer(r, ErrorFrame(WholeSession)), Error);
  }

  /** Before `finally` a cancellation only changes where the runner is, or cancels its receiver. */
  lemma CancelIsPlain(r: Runner)
    requires !InFinally(r.pc) && !r.pc.NotStarted? && !r.pc.Connecting? && !r.pc.Leaving? && r.status != Error
    ensures Plain(r, CancelRunner(r), None) && !InFinally(CancelRunner(r).pc)
  {
    CancelReceiverKeepsAlive(r.recv);
  }

  lemma CancelKeepsShutdown(r: Runner)
    requires Counters(r) && Shutdown(r)
    ensures Counters(CancelRunner(r)) && Shutdown(CancelRunner(r))
  {
    if r.pc.Connecting? || r.pc.Leaving? {
      CancelEntersFinally(r);
    } else if r.pc.NotStarted? || InFinally(r.pc) {
      CancelEndsUnclean(r);
    } else {
      CancelIsPlain(r);
      PlainKeepsShutdown(r, CancelRunner(r), None);
    }
  }

  lemma CancelEntersFinally(r: Runner)
    requires Counters(r) && Shutdown(r) && (r.pc.Connecting? || r.pc.Leaving?)
    ensures Counters(CancelRunner(r)) && Shutdown(CancelRunner(r))
  {
    BusyIff(r);
    FinallyShutsDown(r, Closed);
    assert CancelRunner(r) == EnterFinally(r, Closed);
  }

  lemma CancelEndsUnclean(r: Runner)
    requires Counters(r) && Shutdown(r) && (r.pc.NotStarted? || InFinally(r.pc))
    ensures Counters(CancelRunner(r)) && Shutdown(CancelRunner(r))
  {
  }

  lemma ConnectedKeepsShutdown(r: Runner)
    requires Counters(r) && Shutdown(r) && r.pc.Connecting?
    ensures Counters(LifeStep(r, Connected)) && Shutdown(LifeStep(r, Connected))
  {
    PlainKeepsShutdown(r, LifeStep(r, Connected), Some(SessionReady(r.speaker)));
  }

  lemma LeftKeepsShutdown(r: Runner, ok: bool)
    requires Counters(r) && Shutdown(r) && r.pc.Leaving?
    ensures Counters(LifeStep(r, Left(ok))) && Shutdown(LifeStep(r, Left(ok)))
  {
    BusyIff(r);
    if ok {
      var status := if r.pc.cancelled then Closed else r.status;
      FinallyShutsDown(r, status);
      assert LifeStep(r, Left(ok)) == EnterFinally(r, status);
    } else {
      FatalShutsDown(r);
    }
  }

  lemma LifeKeepsShutdown(r: Runner, e: LifeEvent)
    requires Counters(r) && Shutdown(r)
    ensures Counters(LifeStep(r, e)) && Shutdown(LifeStep(r, e))
  {
    match e {
      case Connected => if r.pc.Connecting? { ConnectedKeepsShutdown(r); }
      case ConnectFailed => if r.pc.Connecting? { FatalShutsDown(r); }
      case Cancel => CancelKeepsShutdown(r);
      case Left(ok) => if r.pc.Leaving? { LeftKeepsShutdown(r, ok); }
      case RecordDone => if r.pc.Recording? { FinishShutsDown(r); }
      case Begin =>
    }
  }

  /** The frames and increments of a consumer keep the counters. */
  lemma AbsorbKeepsTallied(r: Runner, e: Effect, tasks: seq<Task>, inlineTurns: nat)
    requires Tallied(r.tally, r.io.outbox.offered, r.recv.tasks) && NoEnding(r.io.outbox.offered)
    requires Counted(e, r.speaker)
    requires Count(ReturnedAlive, tasks) + inlineTurns ==
             Count(ReturnedAlive, r.recv.tasks) + r.tally.inlineTurns + e.turns
    ensures var s := Absorb(r, e);
            && Tallied(s.tally.(inlineTurns := inlineTurns), s.io.outbox.offered, tasks)
            && NoEnding(s.io.outbox.offered)
            && Count(IsFatal, s.io.outbox.offered) == Count(IsFatal, r.io.outbox.offered)
  {
    PutAllEffect(r.io.outbox, e.offers);
    CountConcat(IsTurn, r.io.outbox.offered, e.offers);
    CountConcat(IsTool, r.io.outbox.offered, e.offers);
    CountConcat(IsFatal, r.io.outbox.offered, e.offers);
    CountNone(IsFatal, e.offers);
  }

  lemma InlineStepEffect(r: Runner, wake: Wake)
    requires r.pc.Consuming? && Fits(r.pc.spot, wake)
    requires Counted(Resume(r.pc.spot, wake, r.speaker), r.speaker)
    ensures var e, s := Resume(r.pc.spot, wake, r.speaker), InlineStep(r, wake);
            && s.io == Absorb(r, e).io && s.recv == r.recv && s.status == r.status && s.finals == r.finals
            && s.tally == Absorb(r, e).tally.(inlineTurns := r.tally.inlineTurns + e.turns)
            && (s.pc.Consuming? || s.pc == Idle || s.pc == Leaving(false))
  {
  }

  lemma InlineKeepsShutdown(r: Runner, wake: Wake)
    requires Counters(r) && Shutdown(r) && r.pc.Consuming? && Fits(r.pc.spot, wake)
    ensures Counters(InlineStep(r, wake)) && Shutdown(InlineStep(r, wake))
  {
    var e := Resume(r.pc.spot, wake, r.speaker);
    ResumeCounts(r.pc.spot, wake, r.speaker);
    AbsorbKeepsTallied(r, e, r.recv.tasks, r.tally.inlineTurns + e.turns);
    InlineStepEffect(r, wake);
  }

  lemma DispatchIsPlain(r: Runner, frame: InputFrame)
    requires r.pc.Idle? && r.status != Error
    ensures var s := Dispatch(r, frame);
            !InFinally(s.pc) && Plain(r, s, if frame.SetSpeaker? then Some(SpeakerModeUpdated(frame.enabled)) else None)
  {
    CancelReceiverKeepsAlive(r.recv);
  }

  lemma DispatchKeepsShutdown(r: Runner, frame: InputFrame)
    requires Counters(r) && Shutdown(r) && r.pc.Idle?
    ensures Counters(Dispatch(r, frame)) && Shutdown(Dispatch(r, frame))
  {
    DispatchIsPlain(r, frame);
    PlainKeepsShutdown(r, Dispatch(r, frame),
                       if frame.SetSpeaker? then Some(SpeakerModeUpdated(frame.enabled)) else None);
  }

  /** Waiting ends: at the idle timeout, or when an awaited receiver is gone. */
  lemma WaitIsPlain(r: Runner, e: LoopEvent)
    requires !InFinally(r.pc) && r.status != Error && !e.InlineWake? && !e.Pop?
    ensures Plain(r, LoopStep(r, e), None) && !InFinally(LoopStep(r, e).pc)
  {
  }

  lemma LoopKeepsShutdown(r: Runner, e: LoopEvent)
    requires Counters(r) && Shutdown(r)
    ensures Counters(LoopStep(r, e)) && Shutdown(LoopStep(r, e))
  {
    if InFinally(r.pc) {
      assert LoopStep(r, e) == r;
    } else {
      match e {
        case Pop =>
          if r.pc.Idle? && r.io.inbox.waiting != [] {
            DispatchKeepsShutdown(r.(io := r.io.(inbox := Take(r.io.inbox))), r.io.inbox.waiting[0]);
          }
        case InlineWake(wake) => if r.pc.Consuming? && Fits(r.pc.spot, wake) { InlineKeepsShutdown(r, wake); }
        case _ =>
          WaitIsPlain(r, e);
          PlainKeepsShutdown(r, LoopStep(r, e), None);
      }
    }
  }

  /** The frame offered when a send has failed. */
  ghost function SendError(r: Runner, e: SendEvent): Option<OutFrame> {
    match e
    case StartSent(ok) => if r.pc.SendingStart? && !ok then Some(ErrorFrame(StartingActivity)) else None
    case AudioSent(_) => None
    case EndSent(ok) => if r.pc.SendingEnd? && !ok then Some(ErrorFrame(EndingActivity)) else None
    case TextSent(ok) => if r.pc.SendingText? && !ok then Some(ErrorFrame(SendingUserText)) else None
  }

  lemma SendIsPlain(r: Runner, e: SendEvent)
    requires !InFinally(r.pc) && r.status != Error
    ensures Plain(r, SendStep(r, e), SendError(r, e)) && !InFinally(SendStep(r, e).pc)
  {
    if e.StartSent? { CountSnoc(ReturnedAlive, r.recv.tasks, Live(AtReceive, false)); }
  }

  lemma SendKeepsShutdown(r: Runner, e: SendEvent)
    requires Counters(r) && Shutdown(r)
    ensures Counters(SendStep(r, e)) && Shutdown(SendStep(r, e))
  {
    if InFinally(r.pc) {
      assert SendStep(r, e) == r;
    } else {
      SendIsPlain(r, e);
      PlainKeepsShutdown(r, SendStep(r, e), SendError(r, e));
    }
  }

  lemma DeliveryKeepsShutdown(r: Runner, i: nat)
    requires Counters(r) && Shutdown(r) && i < |r.recv.tasks| && r.recv.tasks[i].Live?
    ensures var s := TaskStep(r, i, CancelDelivered); Counters(s) && Shutdown(s)
  {
    CountUpdate(ReturnedAlive, r.recv.tasks, i, Ended(WasCancelled));
  }

  /** A live receiver that is not cancelled has a runner that has not reached `finally`. */
  lemma WakeKeepsShutdown(r: Runner, i: nat, wake: Wake)
    requires Counters(r) && Shutdown(r) && !InFinally(r.pc)
    requires i < |r.recv.tasks| && r.recv.tasks[i].Live? && !r.recv.tasks[i].cancelled
    requires Fits(r.recv.tasks[i].spot, wake)
    ensures var s := TaskStep(r, i, Woken(wake)); Counters(s) && Shutdown(s)
  {
    var t := r.recv.tasks[i];
    var f := Resume(t.spot, wake, r.speaker);
    var s := TaskStep(r, i, Woken(wake));
    ResumeCounts(t.spot, wake, r.speaker);
    CountUpdate(ReturnedAlive, r.recv.tasks, i, s.recv.tasks[i]);
    AbsorbKeepsTallied(r, f, s.recv.tasks, r.tally.inlineTurns);
    BusyIff(r);
    BusyIff(s);
  }

  lemma TaskKeepsShutdown(r: Runner, i: nat, e: TaskEvent)
    requires Tracked(r.pc, r.recv) && Counters(r) && Shutdown(r)
    ensures Counters(TaskStep(r, i, e)) && Shutdown(TaskStep(r, i, e))
  {
    if i < |r.recv.tasks| && r.recv.tasks[i].Live? {
      match e {
        case CancelDelivered => DeliveryKeepsShutdown(r, i);
        case Woken(wake) =>
          if !r.recv.tasks[i].cancelled && Fits(r.recv.tasks[i].spot, wake) {
            assert !InFinally(r.pc);
            WakeKeepsShutdown(r, i, wake);
          }
      }
    }
  }

  lemma OutsideKeepsShutdown(r: Runner, e: OutsideEvent)
    requires Counters(r) && Shutdown(r)
    ensures Counters(OutsideStep(r, e)) && Shutdown(OutsideStep(r, e))
  {
  }

  lemma StepKeepsShutdown(r: Runner, e: Event)
    requires Tracked(r.pc, r.recv) && Counters(r) && Shutdown(r)
    ensures Counters(Step(r, e)) && Shutdown(Step(r, e))
  {
    match e {
      case Outside(o) => OutsideKeepsShutdown(r, o);
      case Life(l) => LifeKeepsShutdown(r, l);
      case Loop(l) => LoopKeepsShutdown(r, l);
      case Send(d) => SendKeepsShutdown(r, d);
      case Background(i, t) => TaskKeepsShutdown(r, i, t);
    }
  }
}
