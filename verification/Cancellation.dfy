/** When cancelling a runner ends it: exactly when it is not awaiting the receiver that it has just cancelled. */
module Cancellation {
  import opened Prelude
  import opened BoundedQueue
  import opened Session
  import opened Runner
  import opened RunnerProofs
  import opened Turns
  import Chat
  import ChatProofs
  import ChatRuns

  /** The current receiver is cancelled, or was ended by its cancellation. */
  ghost predicate Doomed(b: Receivers) {
    && b.current.Some? && b.current.value < |b.tasks|
    && match b.tasks[b.current.value]
       case Live(_, cancelled) => cancelled
       case Ended(outcome) => outcome == WasCancelled
  }

  /** The runner has left the main loop, or awaits a receiver whose cancellation will make it leave. */
  ghost predicate Ending(pc: Pc, b: Receivers) {
    pc.Leaving? || InFinally(pc) || (pc.AwaitReceiver? && Doomed(b))
  }

  /** Nothing was sent to Gemini and nothing taken from the inbox. */
  ghost predicate SameTraffic(r: Runner, s: Runner) {
    s.io.sent == r.io.sent && s.io.inbox.taken == r.io.inbox.taken
  }

  ghost predicate StaysEnding(r: Runner, s: Runner) {
    Ending(s.pc, s.recv) && SameTraffic(r, s)
  }

  lemma CancelEnds(r: Runner)
    requires Tracked(r.pc, r.recv) && !r.pc.AwaitOldReceiver?
    ensures StaysEnding(r, CancelRunner(r))
  {
    CancelKeepsWork(r);
  }

  lemma LifeStaysEnding(r: Runner, e: LifeEvent)
    requires Ending(r.pc, r.recv)
    ensures StaysEnding(r, LifeStep(r, e))
  {
    LifeKeepsIo(r, e);
    if e.Cancel? && r.pc.AwaitReceiver? { assert Doomed(CancelReceiver(r.recv)); }
  }

  lemma LoopStaysEnding(r: Runner, e: LoopEvent)
    requires Ending(r.pc, r.recv)
    ensures StaysEnding(r, LoopStep(r, e))
  {
  }

  lemma TaskStaysEnding(r: Runner, i: nat, e: TaskEvent)
    requires Ending(r.pc, r.recv)
    ensures StaysEnding(r, TaskStep(r, i, e))
  {
  }

  lemma StepStaysEnding(r: Runner, e: Event)
    requires Ending(r.pc, r.recv)
    ensures StaysEnding(r, Step(r, e))
  {
    match e {
      case Outside(o) =>
      case Life(l) => LifeStaysEnding(r, l);
      case Loop(l) => LoopStaysEnding(r, l);
      case Send(d) =>
      case Background(i, t) => TaskStaysEnding(r, i, t);
    }
  }

  lemma {:induction false} RunStaysEnding(r: Runner, es: seq<Event>)
    requires Ending(r.pc, r.recv)
    ensures StaysEnding(r, Exec(r, es))
  {
    if es != [] {
      RunStaysEnding(r, es[..|es| - 1]);
      StepStaysEnding(Exec(r, es[..|es| - 1]), es[|es| - 1]);
    }
  }

  /** Some continuation sends to Gemini or takes a frame from the inbox. */
  ghost predicate GoesOn(r: Runner) {
    exists es :: !SameTraffic(r, Exec(r, es))
  }

  /** The old receiver goes, and the swallowed cancellation has changed nothing. */
  lemma AwaitingGoesOn(r: Runner)
    requires Tracked(r.pc, r.recv) && r.pc.AwaitOldReceiver?
    ensures GoesOn(r)
  {
    var receiver := r.recv.current.value;
    var first := Background(receiver, CancelDelivered);
    var es := [first, Loop(OldReceiverGone)];
    var s := Step(r, first);
    assert es[..1][..0] == [];
    assert Exec(r, es[..1]) == s;
    assert s.pc.AwaitOldReceiver? && !ReceiverLive(s.recv) && s.io.sent == r.io.sent;
    assert Exec(r, es).io.sent == r.io.sent + [ActivityStart];
  }

  /**
   * A cancelled runner sends to Gemini or takes a frame again in some continuation exactly if the
   * cancellation came while it awaited the receiver that it had cancelled to start a new turn.
   */
  lemma CancelSwallowedIff(r: Runner)
    requires Tracked(r.pc, r.recv)
    ensures GoesOn(CancelRunner(r)) <==> r.pc.AwaitOldReceiver?
  {
    if r.pc.AwaitOldReceiver? {
      AwaitingGoesOn(r);
    } else {
      CancelEnds(r);
      forall es ensures SameTraffic(CancelRunner(r), Exec(CancelRunner(r), es)) {
        RunStaysEnding(CancelRunner(r), es);
      }
    }
  }

  /** The same at every moment of every run of a session. */
  lemma {:induction false} SwallowedInEveryRun(repo: bool, es: seq<Chat.Event>)
    ensures var r := Chat.Exec(Chat.Init(repo), es).r;
            GoesOn(CancelRunner(r)) <==> r.pc.AwaitOldReceiver?
  {
    ChatProofs.RunKeepsChatInv(repo, es);
    CancelSwallowedIff(Chat.Exec(Chat.Init(repo), es).r);
  }

  /** That moment does come: a second voice_start finds the first turn's receiver at work. */
  lemma SwallowingIsReachable()
    ensures exists s :: ChatRuns.Reachable(s) && GoesOn(CancelRunner(s.r))
  {
    var frames := [ActivityStart, ActivityStart, ActivityEnd, ActivityEnd];
    var s := ChatRuns.TwoTurns();
    s := ChatRuns.StartUp(s);
    s := ChatRuns.SendStart(s, frames[1..], []);
    ChatRuns.ReachableStep(s, Chat.Run(Loop(Pop)));
    s := Chat.Step(s, Chat.Run(Loop(Pop)));
    assert s.r.pc.AwaitOldReceiver?;
    ChatRuns.ReachableInv(s);
    CancelSwallowedIff(s.r);
  }
}
