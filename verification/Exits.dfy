/**
 * What goes on and what ends: how the runner's main loop follows the outcome of a consumer, why it
 * leaves, what it sends of what it takes, and what a session tells the client, in every run.
 */
module Exits {
  import opened Prelude
  import opened BoundedQueue
  import opened Session
  import opened Consumer
  import opened Offers
  import opened Runner
  import opened RunnerProofs
  import opened RunnerDelivery
  import opened Cancellation
  import Chat
  import ChatProofs

  // ---- The end of an activation -------------------------------------------------------------

  /** The frames that a step has offered. */
  ghost predicate Offered(r: Runner, s: Runner, fs: seq<OutFrame>) {
    s.io.outbox.offered == r.io.outbox.offered + fs
  }

  /** The last frame that the step offered is a turn_complete. */
  ghost predicate TurnEnded(r: Runner, s: Runner) {
    && |s.io.outbox.offered| > |r.io.outbox.offered|
    && s.io.outbox.offered[|s.io.outbox.offered| - 1] == TurnComplete
  }

  lemma OfferedTurn(r: Runner, s: Runner, fs: seq<OutFrame>)
    requires Offered(r, s, fs)
    ensures TurnEnded(r, s) <==> EndsInTurn(fs)
  {
  }

  /**
   * After a wake-up of the inline consumer the loop goes on exactly if the last frame it offered is
   * turn_complete, and is left exactly if the stream was over or broken or a tool raised.
   */
  lemma InlineOutcome(r: Runner, wake: Wake)
    requires r.pc.Consuming? && Fits(r.pc.spot, wake)
    ensures var s := LoopStep(r, InlineWake(wake));
            && (s.pc == Idle <==> TurnEnded(r, s)) && (s.pc == Idle <==> Completes(wake))
            && (s.pc == Leaving(false) <==> Failing(wake))
            && (s.pc.Idle? || s.pc.Leaving? || s.pc.Consuming?)
            && s.tally.inlineTurns == r.tally.inlineTurns + (if Completes(wake) then 1 else 0)
            && s.status == r.status
  {
    var s := LoopStep(r, InlineWake(wake));
    var e := Resume(r.pc.spot, wake, r.speaker);
    PutAllEffect(r.io.outbox, e.offers);
    OfferedTurn(r, s, e.offers);
    ConsumerOffers(r.pc.spot, wake, r.speaker);
  }

  /** The receiver can be woken by this. */
  ghost predicate CanWake(r: Runner, i: nat, wake: Wake) {
    && i < |r.recv.tasks| && r.recv.tasks[i].Live? && !r.recv.tasks[i].cancelled
    && Fits(r.recv.tasks[i].spot, wake)
  }

  /** The same for a background receiver: the outcome it ends with. */
  lemma ReceiverOutcome(r: Runner, i: nat, wake: Wake)
    requires CanWake(r, i, wake)
    ensures var s := TaskStep(r, i, Woken(wake));
            && |s.recv.tasks| == |r.recv.tasks|
            && (s.recv.tasks[i] == Ended(ReturnedTrue) <==> TurnEnded(r, s))
            && (s.recv.tasks[i] == Ended(ReturnedTrue) <==> Completes(wake))
            && (s.recv.tasks[i] == Ended(ReturnedFalse) <==> Failing(wake))
            && s.recv.tasks[i] != Ended(WasCancelled)
  {
    var s := TaskStep(r, i, Woken(wake));
    var e := Resume(r.recv.tasks[i].spot, wake, r.speaker);
    PutAllEffect(r.io.outbox, e.offers);
    OfferedTurn(r, s, e.offers);
    ConsumerOffers(r.recv.tasks[i].spot, wake, r.speaker);
  }

  ghost predicate CurrentEnded(b: Receivers, outcome: Outcome) {
    b.current.Some? && b.current.value < |b.tasks| && b.tasks[b.current.value] == Ended(outcome)
  }

  /** What the loop makes of the outcome of the receiver it has awaited. */
  lemma AwaitOutcome(r: Runner, outcome: Outcome)
    requires r.pc.AwaitReceiver? && CurrentEnded(r.recv, outcome)
    ensures var s := LoopStep(r, ReceiverDone);
            && (s.pc == Idle <==> outcome == ReturnedTrue)
            && (s.pc == Leaving(false) <==> outcome == ReturnedFalse)
            && (s.pc == Leaving(true) <==> outcome == WasCancelled)
            && (outcome != WasCancelled ==> s.recv.current == None)
            && s.io == r.io && s.status == r.status
  {
  }

  // ---- Why a runner leaves --------------------------------------------------------------------

  datatype Reason = StillIn | StopTaken | IdleTooLong | StreamOver | Cancelled | Fatal

  ghost predicate HasLeft(pc: Pc) {
    pc.Leaving? || InFinally(pc)
  }

  /** A cancellation is delivered at once where the runner awaits no receiver. */
  ghost predicate CancelsAtOnce(r: Runner) {
    !r.pc.AwaitOldReceiver? && !(r.pc.AwaitReceiver? && ReceiverLive(r.recv))
  }

  ghost function LoopReason(r: Runner, e: LoopEvent): Reason {
    match e
    case IdleTimeout => if r.pc.Idle? then IdleTooLong else StillIn
    case Pop => if r.pc.Idle? && r.io.inbox.waiting != [] && r.io.inbox.waiting[0] == Stop then StopTaken else StillIn
    case InlineWake(wake) =>
      if r.pc.Consuming? && Fits(r.pc.spot, wake) && Failing(wake) then StreamOver else StillIn
    case ReceiverDone =>
      if r.pc.AwaitReceiver? && CurrentEnded(r.recv, ReturnedFalse) then StreamOver
      else if r.pc.AwaitReceiver? && CurrentEnded(r.recv, WasCancelled) then Cancelled
      else StillIn
    case OldReceiverGone => StillIn
  }

  /** Why a runner that was still in its loop leaves by this event, if it does. */
  ghost function FirstReason(r: Runner, e: Event): Reason {
    match e
    case Life(ConnectFailed) => if r.pc.Connecting? then Fatal else StillIn
    case Life(Cancel) => if CancelsAtOnce(r) then Cancelled else StillIn
    case Loop(l) => LoopReason(r, l)
    case _ => StillIn
  }

  /** A later cancellation, or a failure to close the connection, overrides why the loop was left. */
  ghost function ReasonAfter(before: Reason, r: Runner, e: Event): Reason {
    if before.StillIn? then FirstReason(r, e)
    else if r.pc.Leaving? && e == Life(Cancel) then Cancelled
    else if r.pc.Leaving? && e == Life(Left(false)) then Fatal
    else before
  }

  ghost function StatusFor(reason: Reason): Status {
    match reason
    case IdleTooLong => TimedOut
    case Fatal => Error
    case _ => Closed
  }

  /** The runner is where its reason says, with the status that it calls for. */
  ghost predicate Explained(r: Runner, reason: Reason) {
    && (HasLeft(r.pc) <==> !reason.StillIn?)
    && (r.pc.Leaving? ==> !reason.Fatal? && (r.pc.cancelled <==> reason.Cancelled?))
    && (InFinally(r.pc) ==> r.status == StatusFor(reason))
    && (!InFinally(r.pc) && !reason.Cancelled? ==> r.status == StatusFor(reason))
    && (!InFinally(r.pc) ==> r.status != Error)
  }

  lemma FinallyStatus(r: Runner, status: Status)
    ensures EnterFinally(r, status).status == status && InFinally(EnterFinally(r, status).pc)
  {
  }

  lemma CancelExplained(r: Runner, reason: Reason)
    requires Explained(r, reason)
    ensures Explained(CancelRunner(r), ReasonAfter(reason, r, Life(Cancel)))
  {
    FinallyStatus(r, Closed);
  }

  lemma LeftExplained(r: Runner, ok: bool, reason: Reason)
    requires Explained(r, reason)
    ensures Explained(LifeStep(r, Left(ok)), ReasonAfter(reason, r, Life(Left(ok))))
  {
    if ok { FinallyStatus(r, if r.pc.Leaving? && r.pc.cancelled then Closed else r.status); }
    else { FinallyStatus(Offer(r, ErrorFrame(WholeSession)), Error); }
  }

  lemma LifeExplained(r: Runner, e: LifeEvent, reason: Reason)
    requires Explained(r, reason)
    ensures Explained(LifeStep(r, e), ReasonAfter(reason, r, Life(e)))
  {
    match e {
      case ConnectFailed => FinallyStatus(Offer(r, ErrorFrame(WholeSession)), Error);
      case Cancel => CancelExplained(r, reason);
      case Left(ok) => LeftExplained(r, ok, reason);
      case _ =>
    }
  }

  /** What a popped frame leads to. */
  lemma PopOutcome(r: Runner)
    requires r.pc.Idle? && r.io.inbox.waiting != []
    ensures var s := LoopStep(r, Pop);
            && (HasLeft(s.pc) <==> r.io.inbox.waiting[0] == Stop) && (s.pc.Leaving? ==> s.pc == Leaving(false))
            && s.status == r.status
  {
  }

  lemma PopExplained(r: Runner, reason: Reason)
    requires Explained(r, reason)
    ensures Explained(LoopStep(r, Pop), ReasonAfter(reason, r, Loop(Pop)))
  {
    if r.pc.Idle? && r.io.inbox.waiting != [] { PopOutcome(r); }
  }

  lemma InlineExplained(r: Runner, wake: Wake, reason: Reason)
    requires Explained(r, reason)
    ensures Explained(LoopStep(r, InlineWake(wake)), ReasonAfter(reason, r, Loop(InlineWake(wake))))
  {
    if r.pc.Consuming? && Fits(r.pc.spot, wake) { InlineOutcome(r, wake); }
  }

  lemma AwaitExplained(r: Runner, reason: Reason)
    requires Explained(r, reason)
    ensures Explained(LoopStep(r, ReceiverDone), ReasonAfter(reason, r, Loop(ReceiverDone)))
  {
    if r.pc.AwaitReceiver? && r.recv.current.Some? && r.recv.current.value < |r.recv.tasks|
       && r.recv.tasks[r.recv.current.value].Ended? {
      AwaitOutcome(r, r.recv.tasks[r.recv.current.value].outcome);
    }
  }

  lemma LoopExplained(r: Runner, e: LoopEvent, reason: Reason)
    requires Explained(r, reason)
    ensures Explained(LoopStep(r, e), ReasonAfter(reason, r, Loop(e)))
  {
    match e {
      case Pop => PopExplained(r, reason);
      case InlineWake(wake) => InlineExplained(r, wake, reason);
      case ReceiverDone => AwaitExplained(r, reason);
      case IdleTimeout =>
      case OldReceiverGone =>
    }
  }

  lemma SendExplained(r: Runner, e: SendEvent, reason: Reason)
    requires Explained(r, reason)
    ensures Explained(SendStep(r, e), reason)
  {
  }

  lemma StepExplained(r: Runner, e: Event, reason: Reason)
    requires Explained(r, reason)
    ensures Explained(Step(r, e), ReasonAfter(reason, r, e))
  {
    match e {
      case Life(l) => LifeExplained(r, l, reason);
      case Loop(l) => LoopExplained(r, l, reason);
      case Send(d) => SendExplained(r, d, reason);
      case Outside(_) =>
      case Background(_, _) =>
    }
  }

  ghost function RunnerAt(repo: bool, es: seq<Chat.Event>): Runner {
    Chat.Exec(Chat.Init(repo), es).r
  }

  /** Why the runner has left, told by the events of the run. */
  ghost function ReasonOf(repo: bool, es: seq<Chat.Event>): Reason {
    if es == [] then StillIn
    else
      var before, e := es[..|es| - 1], es[|es| - 1];
      if e.Run? && !e.e.Outside? then ReasonAfter(ReasonOf(repo, before), RunnerAt(repo, before), e.e)
      else ReasonOf(repo, before)
  }

  /**
   * In every run the runner has left its loop exactly if it took a stop frame, timed out, was
   * cancelled, failed to connect, or awaited a consumer that ended with its stream; and the status
   * that it records is Error for a failure, TimedOut for an idle timeout, Closed for all else.
   */
  lemma {:induction false} WhyItLeaves(repo: bool, es: seq<Chat.Event>)
    ensures Explained(RunnerAt(repo, es), ReasonOf(repo, es))
  {
    if es != [] {
      var before, e := es[..|es| - 1], es[|es| - 1];
      WhyItLeaves(repo, before);
      ChatStepRunner(Chat.Exec(Chat.Init(repo), before), e);
      if e.Run? && !e.e.Outside? {
        StepExplained(RunnerAt(repo, before), e.e, ReasonOf(repo, before));
      }
    }
  }

  /** The rest of the session only puts frames into the inbox and takes frames from the outbox. */
  ghost predicate Untouched(r: Runner, s: Runner) {
    && s == r.(io := r.io.(inbox := s.io.inbox, outbox := s.io.outbox))
    && s.io.inbox.taken == r.io.inbox.taken && s.io.outbox.offered == r.io.outbox.offered
  }

  lemma ChatStepRunner(s: Chat.Chat, e: Chat.Event)
    ensures if e.Run? && !e.e.Outside? then Chat.Step(s, e).r == Step(s.r, e.e) else Untouched(s.r, Chat.Step(s, e).r)
  {
  }

  /** Once it has left, it sends nothing and takes no further frame, whatever comes. */
  lemma {:induction false} NothingAfterLeaving(s: Chat.Chat, later: seq<Chat.Event>)
    requires HasLeft(s.r.pc)
    ensures HasLeft(Chat.Exec(s, later).r.pc) && SameTraffic(s.r, Chat.Exec(s, later).r)
  {
    if later != [] {
      var t, e := Chat.Exec(s, later[..|later| - 1]), later[|later| - 1];
      NothingAfterLeaving(s, later[..|later| - 1]);
      ChatStepRunner(t, e);
      if e.Run? && !e.e.Outside? { LeftStaysLeft(t.r, e.e); }
    }
  }

  lemma LeftStaysLeft(r: Runner, e: Event)
    requires HasLeft(r.pc)
    ensures HasLeft(Step(r, e).pc) && SameTraffic(r, Step(r, e))
  {
    StepStaysEnding(r, e);
    match e {
      case Life(l) => LifeFromLeft(r, l);
      case _ =>
    }
  }

  lemma LifeFromLeft(r: Runner, e: LifeEvent)
    requires HasLeft(r.pc)
    ensures HasLeft(LifeStep(r, e).pc)
  {
  }
}
