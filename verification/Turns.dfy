/** Turns of a session: what a stop frame, an activity_start and an activity_end bring about in every run. */
module Turns {
  import opened Prelude
  import opened BoundedQueue
  import opened Session
  import opened Consumer
  import opened Runner
  import opened RunnerProofs
  import Chat
  import Bracketing

  /** A stop frame is the last frame the runner takes, and it then leaves. */
  ghost predicate StopIsLast(pc: Pc, taken: seq<InputFrame>) {
    && (forall i :: 0 <= i < |taken| - 1 ==> taken[i] != Stop)
    && (taken != [] && taken[|taken| - 1] == Stop ==> pc.Leaving? || InFinally(pc))
  }

  ghost predicate IsStart(f: InputFrame) { f.ActivityStart? }

  ghost predicate EndsInStart(sent: seq<InputFrame>) {
    sent != [] && sent[|sent| - 1] == ActivityStart
  }

  /** The activity_starts that neither failed nor brought a receiver. */
  ghost function Unanswered(io: Io, b: Receivers): int {
    Count(IsStart, io.sent) - |b.tasks| - |io.failedStarts|
  }

  /**
   * Every activity_start attempted has failed or brought exactly one receiver, but perhaps the
   * last attempt of all, which is being made or was cut short by a cancellation.
   */
  ghost predicate ReceiversAccounted(pc: Pc, io: Io, b: Receivers) {
    && 0 <= Unanswered(io, b) <= 1
    && (Unanswered(io, b) == 1 ==> EndsInStart(io.sent) && (pc.SendingStart? || pc.Leaving? || InFinally(pc)))
    && (pc.SendingStart? ==> Unanswered(io, b) == 1)
    && (forall i :: i in io.failedStarts ==>
          0 <= i < |io.sent| && io.sent[i] == ActivityStart && (pc.SendingStart? ==> i < |io.sent| - 1))
  }

  /** When the loop is ready for the next frame, a receiver is at work only inside an open activity. */
  ghost predicate ClosedBetweenTurns(pc: Pc, io: Io, b: Receivers) {
    (pc.Idle? || pc.SendingAudio?) && ReceiverLive(b) ==> Bracketing.OpenAfter(io.sent)
  }

  ghost predicate TurnInv(r: Runner) {
    && Tracked(r.pc, r.recv)
    && StopIsLast(r.pc, r.io.inbox.taken)
    && ReceiversAccounted(r.pc, r.io, r.recv)
    && ClosedBetweenTurns(r.pc, r.io, r.recv)
  }

  lemma CancelReceiverKeepsTasks(b: Receivers)
    ensures |CancelReceiver(b).tasks| == |b.tasks| && ReceiverLive(CancelReceiver(b)) == ReceiverLive(b)
  {
  }

  /** Leaving, with nothing sent or taken, keeps the account. */
  lemma LeaveKeepsTurns(r: Runner, s: Runner)
    requires TurnInv(r) && (s.pc.Leaving? || InFinally(s.pc))
    requires s.io.sent == r.io.sent && s.io.failedStarts == r.io.failedStarts && s.io.inbox.taken == r.io.inbox.taken
    requires |s.recv.tasks| == |r.recv.tasks| && Tracked(s.pc, s.recv)
    ensures TurnInv(s)
  {
  }

  lemma LifeKeepsTurns(r: Runner, e: LifeEvent)
    requires TurnInv(r)
    ensures TurnInv(LifeStep(r, e))
  {
    LifeKeepsTracked(r, e);
    CancelReceiverKeepsTasks(r.recv);
    var s := LifeStep(r, e);
    LifeKeepsIo(r, e);
    if s.pc.Leaving? || InFinally(s.pc) { LeaveKeepsTurns(r, s); }
  }

  /** Nothing sent or taken, and no receiver started or ended. */
  ghost predicate SameWork(r: Runner, s: Runner) {
    && s.io.sent == r.io.sent && s.io.failedStarts == r.io.failedStarts && s.io.inbox == r.io.inbox
    && |s.recv.tasks| == |r.recv.tasks| && ReceiverLive(s.recv) == ReceiverLive(r.recv)
  }

  lemma FinallyKeepsWork(r: Runner, status: Status)
    ensures SameWork(r, EnterFinally(r, status)) && InFinally(EnterFinally(r, status).pc)
  {
    CancelReceiverKeepsTasks(r.recv);
  }

  lemma CancelKeepsWork(r: Runner)
    ensures var s := CancelRunner(r);
            SameWork(r, s) && (s.pc == r.pc || s.pc.Leaving? || InFinally(s.pc))
  {
    CancelReceiverKeepsTasks(r.recv);
    match r.pc {
      case Connecting => FinallyKeepsWork(r, Closed);
      case Leaving(_) => FinallyKeepsWork(r, Closed);
      case _ =>
    }
  }

  lemma LifeKeepsIo(r: Runner, e: LifeEvent)
    ensures var s := LifeStep(r, e);
            SameWork(r, s)
            && (s.pc == r.pc || s.pc.Leaving? || InFinally(s.pc)
                || (r.pc.NotStarted? && s.pc.Connecting?) || (r.pc.Connecting? && s.pc.Idle?))
  {
    match e {
      case ConnectFailed => FinallyKeepsWork(Offer(r, ErrorFrame(WholeSession)), Error);
      case Cancel => CancelKeepsWork(r);
      case Left(ok) =>
        if ok { FinallyKeepsWork(r, if r.pc.Leaving? && r.pc.cancelled then Closed else r.status); }
        else { FinallyKeepsWork(Offer(r, ErrorFrame(WholeSession)), Error); }
      case _ =>
    }
  }

  /** One more attempt. */
  lemma AttemptCounts(sent: seq<InputFrame>, f: InputFrame)
    ensures Count(IsStart, sent + [f]) == Count(IsStart, sent) + if f.ActivityStart? then 1 else 0
    ensures Bracketing.OpenAfter(sent + [f]) <==>
              f.ActivityStart? || (!f.ActivityEnd? && Bracketing.OpenAfter(sent))
  {
    CountSnoc(IsStart, sent, f);
    Bracketing.Extend(sent, f);
  }

  /** What a popped frame leads to: an attempt, a wait for the old receiver, the end, or nothing. */
  lemma DispatchEffect(r: Runner, f: InputFrame)
    requires r.pc.Idle?
    ensures var s := Dispatch(r, f);
            && s.io.inbox == r.io.inbox && s.io.failedStarts == r.io.failedStarts
            && |s.recv.tasks| == |r.recv.tasks| && ReceiverLive(s.recv) == ReceiverLive(r.recv)
            && (s.io.sent == r.io.sent || s.io.sent == r.io.sent + [f])
            && (f == Stop ==> s.pc.Leaving?)
            && (s.pc.SendingStart? <==> f == ActivityStart && s.io.sent == r.io.sent + [f])
            && (s.pc.SendingAudio? ==> s.io.sent == r.io.sent + [f] && f.AudioChunk?)
            && (s.pc.Idle? ==> s.io.sent == r.io.sent)
            && (f == ActivityStart ==> s.pc.SendingStart? || s.io.sent == r.io.sent)
            && !s.pc.Consuming?
  {
    CancelReceiverKeepsTasks(r.recv);
  }

  lemma DispatchKeepsTurns(r: Runner, f: InputFrame, taken: seq<InputFrame>)
    requires r.pc.Idle? && r.io.inbox.taken == taken + [f]
    requires Tracked(r.pc, r.recv) && StopIsLast(r.pc, taken)
    requires ReceiversAccounted(r.pc, r.io, r.recv) && ClosedBetweenTurns(r.pc, r.io, r.recv)
    ensures TurnInv(Dispatch(r, f))
  {
    DispatchKeepsTracked(r, f);
    DispatchEffect(r, f);
    AttemptCounts(r.io.sent, f);
  }

  lemma PopKeepsTurns(r: Runner)
    requires TurnInv(r)
    ensures TurnInv(LoopStep(r, Pop))
  {
    if r.pc.Idle? && r.io.inbox.waiting != [] {
      DispatchKeepsTurns(r.(io := r.io.(inbox := Take(r.io.inbox))), r.io.inbox.waiting[0], r.io.inbox.taken);
    }
  }

  lemma InlineKeepsTurns(r: Runner, wake: Wake)
    requires TurnInv(r) && r.pc.Consuming? && Fits(r.pc.spot, wake)
    ensures TurnInv(InlineStep(r, wake))
  {
    InlineKeepsTracked(r, wake);
    InlineKeepsIo(r, wake);
  }

  lemma InlineKeepsIo(r: Runner, wake: Wake)
    requires r.pc.Consuming? && Fits(r.pc.spot, wake)
    ensures var s := InlineStep(r, wake);
            && s.io.sent == r.io.sent && s.io.failedStarts == r.io.failedStarts && s.io.inbox == r.io.inbox
            && s.recv == r.recv && (s.pc.Consuming? || s.pc.Idle? || s.pc.Leaving?)
  {
  }

  lemma OldReceiverKeepsTurns(r: Runner)
    requires TurnInv(r)
    ensures TurnInv(LoopStep(r, OldReceiverGone))
  {
    LoopKeepsTracked(r, OldReceiverGone);
    AttemptCounts(r.io.sent, ActivityStart);
  }

  lemma WaitKeepsTurns(r: Runner, e: LoopEvent)
    requires TurnInv(r) && (e.IdleTimeout? || e.ReceiverDone?)
    ensures TurnInv(LoopStep(r, e))
  {
    LoopKeepsTracked(r, e);
  }

  lemma LoopKeepsTurns(r: Runner, e: LoopEvent)
    requires TurnInv(r)
    ensures TurnInv(LoopStep(r, e))
  {
    match e {
      case Pop => PopKeepsTurns(r);
      case OldReceiverGone => OldReceiverKeepsTurns(r);
      case InlineWake(wake) => if r.pc.Consuming? && Fits(r.pc.spot, wake) { InlineKeepsTurns(r, wake); }
      case _ => WaitKeepsTurns(r, e);
    }
  }

  lemma StartKeepsTurns(r: Runner, ok: bool)
    requires TurnInv(r)
    ensures TurnInv(SendStep(r, StartSent(ok)))
  {
    SendKeepsTracked(r, StartSent(ok));
    if r.pc.SendingStart? && !ok {
      assert |r.io.sent| - 1 !in r.io.failedStarts;
    }
    if r.pc.SendingStart? {
      assert r.io.sent == r.io.sent[..|r.io.sent| - 1] + [ActivityStart];
      AttemptCounts(r.io.sent[..|r.io.sent| - 1], ActivityStart);
    }
  }

  lemma SendKeepsTurns(r: Runner, e: SendEvent)
    requires TurnInv(r)
    ensures TurnInv(SendStep(r, e))
  {
    if e.StartSent? { StartKeepsTurns(r, e.ok); } else { SendKeepsTracked(r, e); }
  }

  lemma TaskKeepsTurns(r: Runner, i: nat, e: TaskEvent)
    requires TurnInv(r)
    ensures TurnInv(TaskStep(r, i, e))
  {
    TaskKeepsTracked(r, i, e);
  }

  lemma StepKeepsTurns(r: Runner, e: Event)
    requires TurnInv(r)
    ensures TurnInv(Step(r, e))
  {
    match e {
      case Outside(o) =>
      case Life(l) => LifeKeepsTurns(r, l);
      case Loop(l) => LoopKeepsTurns(r, l);
      case Send(d) => SendKeepsTurns(r, d);
      case Background(i, t) => TaskKeepsTurns(r, i, t);
    }
  }

  lemma ChatStepKeepsTurns(s: Chat.Chat, e: Chat.Event)
    requires TurnInv(s.r)
    ensures TurnInv(Chat.Step(s, e).r)
  {
    match e {
      case Receive(c, m) =>
        if c in s.voices && Chat.FilterMessage(s.voices[c], m).frame.Some? {
          StepKeepsTurns(s.r, Outside(InboxPut(Chat.FilterMessage(s.voices[c], m).frame.value)));
        }
      case RequestStop => StepKeepsTurns(s.r, Outside(InboxPut(Stop)));
      case Forward(c) => StepKeepsTurns(s.r, Outside(OutboxTake));
      case Run(re) => StepKeepsTurns(s.r, re);
      case _ =>
    }
  }

  /**
   * In every run: a stop frame is the last one the runner takes; every activity_start attempted
   * failed or brought exactly one receiver, but perhaps the last attempt of all; and whenever the
   * loop is ready for the next frame, a receiver is at work only if the last activity is open.
   */
  lemma {:induction false} TurnsAreOrderly(repo: bool, es: seq<Chat.Event>)
    ensures var r := Chat.Exec(Chat.Init(repo), es).r;
            && StopIsLast(r.pc, r.io.inbox.taken)
            && ReceiversAccounted(r.pc, r.io, r.recv)
            && ClosedBetweenTurns(r.pc, r.io, r.recv)
            && Tracked(r.pc, r.recv)
  {
    if es != [] {
      TurnsAreOrderly(repo, es[..|es| - 1]);
      ChatStepKeepsTurns(Chat.Exec(Chat.Init(repo), es[..|es| - 1]), es[|es| - 1]);
    }
  }

  /** The activity_start at j got through: it has not failed and is not the one still being made or cut short. */
  ghost predicate GotThrough(io: Io, b: Receivers, j: nat) {
    && j < |io.sent| && io.sent[j] == ActivityStart && j !in io.failedStarts
    && (Unanswered(io, b) == 1 ==> j < |io.sent| - 1)
  }

  /** Before attempt i an activity_start has got through, with no activity_end attempted since. */
  ghost predicate OpenedInFact(io: Io, b: Receivers, i: nat) {
    && i <= |io.sent|
    && exists j: nat :: j < i && GotThrough(io, b, j) && forall k :: j < k < i ==> !io.sent[k].ActivityEnd?
  }

  /**
   * With no harmful message and no failed activity_start, every audio and activity_end attempt
   * follows an activity_start that got through.
   */
  lemma {:induction false} BracketedByAcceptedStarts(repo: bool, es: seq<Chat.Event>)
    ensures var r := Chat.Exec(Chat.Init(repo), es).r;
            Bracketing.Harmless(repo, es) && r.io.failedStarts == {} ==>
              forall i: nat :: i < |r.io.sent| && Bracketing.NeedsOpen(r.io.sent[i]) ==> OpenedInFact(r.io, r.recv, i)
  {
    Bracketing.VoiceBracketing(repo, es);
    var r := Chat.Exec(Chat.Init(repo), es).r;
    if Bracketing.Harmless(repo, es) && r.io.failedStarts == {} {
      forall i: nat | i < |r.io.sent| && Bracketing.NeedsOpen(r.io.sent[i]) ensures OpenedInFact(r.io, r.recv, i) {
        assert Bracketing.OpenedBefore(r.io.sent, i);
        OpenedByOne(r.io, r.recv, i);
      }
    }
  }

  lemma OpenedByOne(io: Io, b: Receivers, i: nat)
    requires i < |io.sent| && Bracketing.OpenedBefore(io.sent, i) && io.failedStarts == {}
    ensures OpenedInFact(io, b, i)
  {
    var j :| 0 <= j < i <= |io.sent| && io.sent[j].ActivityStart? && forall k :: j < k < i ==> !io.sent[k].ActivityEnd?;
    assert GotThrough(io, b, j);
  }

  // ---- Tool calls -----------------------------------------------------------------------------

  /** The frames of a tool-call message whose calls all return, and where the consumer is then. */
  ghost function Answered(todo: seq<ToolRequest>, results: seq<string>, speaker: bool): (seq<OutFrame>, Progress)
    requires |todo| == |results|
    decreases |todo|
  {
    if todo == [] then ([], Suspended(AtToolReply))
    else
      var e := Resume(AtTool(todo), ToolReturned(results[0]), speaker);
      if e.next.Suspended? && e.next.spot.AtTool? && |e.next.spot.todo| == |todo| - 1 then
        var (frames, next) := Answered(e.next.spot.todo, results[1..], speaker);
        (e.offers + frames, next)
      else (e.offers, e.next)
  }

  /** Every request of a message is executed once, in order, and its result reported, before the reply is sent. */
  lemma {:induction false} EveryRequestIsAnswered(todo: seq<ToolRequest>, results: seq<string>, speaker: bool)
    requires |todo| == |results|
    ensures var (frames, next) := Answered(todo, results, speaker);
            && next == Suspended(AtToolReply) && |frames| == |todo|
            && forall i :: 0 <= i < |todo| ==> frames[i] == ToolCall(todo[i].name, todo[i].callId, results[i])
    decreases |todo|
  {
    if |todo| > 1 { EveryRequestIsAnswered(todo[1..], results[1..], speaker); }
  }
}
