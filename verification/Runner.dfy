/**
 * The session runner as a step machine.  One step runs one task from a suspension point to the
 * next; the environment may put frames into the inbox and take frames from the outbox between
 * any two steps.  An event that is not possible in a state leaves it unchanged.
 */
module Runner {
  import opened Prelude
  import opened BoundedQueue
  import opened Session
  import opened Consumer

  datatype Status = Closed | TimedOut | Error

  datatype Outcome = ReturnedTrue | ReturnedFalse | WasCancelled

  /** A background receiver task: every task ever created keeps its entry. */
  datatype Task = Live(spot: Spot, cancelled: bool) | Ended(outcome: Outcome)

  /** Where the runner coroutine is suspended. */
  datatype Pc =
    | NotStarted
    | Connecting                 // opening the Gemini connection
    | Idle                       // inbox.get()
    | AwaitOldReceiver           // ACTIVITY_START, awaiting the receiver it has just cancelled
    | SendingStart
    | SendingAudio
    | SendingEnd
    | AwaitReceiver              // ACTIVITY_END, awaiting the receiver of this voice turn
    | SendingText
    | Consuming(spot: Spot)      // the inline consumer of a text turn
    | Leaving(cancelled: bool)   // closing the Gemini connection
    | Recording                  // inside `finally`, writing the session record
    | Done(clean: bool)          // false when cancelled before `try` or inside `finally`

  datatype FinalKind = RecordWrite | ClosedEvent

  /** A record-write attempt or a closed-event delivery, and how many offers preceded it. */
  datatype Final = Final(kind: FinalKind, status: Status, turns: nat, toolCalls: nat, offersBefore: nat)

  /** Every receiver task ever created, and the variable _recv_task as an index into them. */
  datatype Receivers = Receivers(tasks: seq<Task>, current: Option<nat>)

  /** The two queues, the sends attempted to Gemini in order, and which activity_starts failed. */
  datatype Io = Io(inbox: Queue<InputFrame>, outbox: Queue<OutFrame>, sent: seq<InputFrame>, failedStarts: set<int>)

  /** The session counters; inlineTurns counts inline activations that returned True. */
  datatype Tally = Tally(turns: nat, toolCalls: nat, inlineTurns: nat)

  datatype Runner = Runner(
    pc: Pc,
    status: Status,
    repo: bool,              // whether a session repository is wired in
    speaker: bool,
    io: Io,
    tally: Tally,
    recv: Receivers,
    finals: seq<Final>)

  /** What the rest of the process does to the queues. */
  datatype OutsideEvent =
    | InboxPut(frame: InputFrame)
    | OutboxTake

  /** Opening, cancellation and shutdown. */
  datatype LifeEvent =
    | Begin
    | Connected
    | ConnectFailed
    | Cancel
    | Left(ok: bool)
    | RecordDone                 // the write has returned, or its exception was logged

  /** The main loop. */
  datatype LoopEvent =
    | IdleTimeout
    | Pop
    | OldReceiverGone
    | ReceiverDone
    | InlineWake(wake: Wake)

  /** A send to Gemini completes or raises. */
  datatype SendEvent =
    | StartSent(ok: bool)
    | AudioSent(ok: bool)
    | EndSent(ok: bool)
    | TextSent(ok: bool)

  datatype TaskEvent =
    | Woken(wake: Wake)
    | CancelDelivered

  datatype Event =
    | Outside(outside: OutsideEvent)
    | Life(life: LifeEvent)
    | Loop(loop: LoopEvent)
    | Send(send: SendEvent)
    | Background(task: nat, event: TaskEvent)

  function Fresh(repo: bool): Runner {
    Runner(NotStarted, Closed, repo, false, Io(Empty(INBOX_MAX_SIZE), Empty(OUTBOX_MAX_SIZE), [], {}),
           Tally(0, 0, 0), Receivers([], None), [])
  }

  function Offer(r: Runner, frame: OutFrame): Runner {
    r.(io := r.io.(outbox := Put(r.io.outbox, frame)))
  }

  /** The consumer's frames and counter increments. */
  function Absorb(r: Runner, e: Effect): Runner {
    r.(io := r.io.(outbox := PutAll(r.io.outbox, e.offers)),
       tally := r.tally.(turns := r.tally.turns + e.turns, toolCalls := r.tally.toolCalls + e.tools))
  }

  /** `_recv_task is not None and not _recv_task.done()` */
  predicate ReceiverLive(b: Receivers) {
    b.current.Some? && b.current.value < |b.tasks| && b.tasks[b.current.value].Live?
  }

  function CancelReceiver(b: Receivers): Receivers {
    if ReceiverLive(b) then
      b.(tasks := b.tasks[b.current.value := b.tasks[b.current.value].(cancelled := true)])
    else b
  }

  function Note(r: Runner, kind: FinalKind): Runner {
    r.(finals := r.finals + [Final(kind, r.status, r.tally.turns, r.tally.toolCalls, |r.io.outbox.offered|)])
  }

  /** The part of `finally` after the record write. */
  function Finish(r: Runner): Runner {
    Offer(Offer(Note(r, ClosedEvent), SessionEnded), OutboxStop).(pc := Done(true))
  }

  function EnterFinally(r: Runner, status: Status): Runner {
    var r1 := r.(recv := CancelReceiver(r.recv), status := status);
    if r.repo then Note(r1, RecordWrite).(pc := Recording) else Finish(r1)
  }

  function Attempt(r: Runner, frame: InputFrame, pc: Pc): Runner {
    r.(io := r.io.(sent := r.io.sent + [frame]), pc := pc)
  }

  /** One popped frame, up to the first await of its branch. */
  function Dispatch(r: Runner, frame: InputFrame): Runner {
    match frame
    case Stop => r.(pc := Leaving(false))
    case SetSpeaker(b) => Offer(r.(speaker := b), SpeakerModeUpdated(b))
    case ActivityStart =>
      if ReceiverLive(r.recv) then r.(recv := CancelReceiver(r.recv), pc := AwaitOldReceiver)
      else Attempt(r, frame, SendingStart)
    case AudioChunk(_) => Attempt(r, frame, SendingAudio)
    case ActivityEnd => Attempt(r, frame, SendingEnd)
    case Text(_) => if ReceiverLive(r.recv) then r else Attempt(r, frame, SendingText)
  }

  /** The await of ACTIVITY_END returns or raises. */
  function AfterReceiver(r: Runner, outcome: Outcome): Runner {
    match outcome
    case ReturnedTrue => r.(recv := r.recv.(current := None), pc := Idle)
    case ReturnedFalse => r.(recv := r.recv.(current := None), pc := Leaving(false))
    case WasCancelled => r.(pc := Leaving(true))
  }

  function InlineStep(r: Runner, wake: Wake): Runner
    requires r.pc.Consuming? && Fits(r.pc.spot, wake)
  {
    var e := Resume(r.pc.spot, wake, r.speaker);
    var r1 := Absorb(r, e);
    match e.next
    case Suspended(spot) => r1.(pc := Consuming(spot))
    case Returned(alive) =>
      if alive then r1.(pc := Idle, tally := r1.tally.(inlineTurns := r.tally.inlineTurns + 1))
      else r1.(pc := Leaving(false))
  }

  /**
   * Cancellation of the runner task.  While it awaits the old receiver the CancelledError is
   * swallowed; while it awaits the receiver of a voice turn the cancellation reaches the
   * receiver first; inside `finally` it cuts the rest short.
   */
  function CancelRunner(r: Runner): Runner {
    match r.pc
    case NotStarted => r.(pc := Done(false))
    case Connecting => EnterFinally(r, Closed)
    case AwaitOldReceiver => r
    case AwaitReceiver =>
      if ReceiverLive(r.recv) then r.(recv := CancelReceiver(r.recv)) else r.(pc := Leaving(true))
    case Leaving(_) => EnterFinally(r, Closed)
    case Recording => r.(pc := Done(false))
    case Done(_) => r
    case _ => r.(pc := Leaving(true))
  }

  function OutsideStep(r: Runner, e: OutsideEvent): Runner {
    match e
    case InboxPut(frame) => r.(io := r.io.(inbox := Put(r.io.inbox, frame)))
    case OutboxTake =>
      if r.io.outbox.waiting != [] then r.(io := r.io.(outbox := Take(r.io.outbox))) else r
  }

  function LifeStep(r: Runner, e: LifeEvent): Runner {
    match e
    case Begin => if r.pc.NotStarted? then r.(pc := Connecting) else r
    case Connected =>
      if r.pc.Connecting? then Offer(r, SessionReady(r.speaker)).(pc := Idle) else r
    case ConnectFailed =>
      if r.pc.Connecting? then EnterFinally(Offer(r, ErrorFrame(WholeSession)), Error) else r
    case Cancel => CancelRunner(r)
    case Left(ok) =>
      if !r.pc.Leaving? then r
      else if !ok then EnterFinally(Offer(r, ErrorFrame(WholeSession)), Error)
      else EnterFinally(r, if r.pc.cancelled then Closed else r.status)
    case RecordDone => if r.pc.Recording? then Finish(r) else r
  }

  function LoopStep(r: Runner, e: LoopEvent): Runner {
    match e
    case IdleTimeout =>
      if r.pc.Idle? then r.(status := TimedOut, pc := Leaving(false)) else r
    case Pop =>
      if r.pc.Idle? && r.io.inbox.waiting != [] then
        Dispatch(r.(io := r.io.(inbox := Take(r.io.inbox))), r.io.inbox.waiting[0])
      else r
    case OldReceiverGone =>
      if r.pc.AwaitOldReceiver? && !ReceiverLive(r.recv) then
        Attempt(r.(recv := r.recv.(current := None)), ActivityStart, SendingStart)
      else r
    case ReceiverDone =>
      var b := r.recv;
      if r.pc.AwaitReceiver? && b.current.Some? && b.current.value < |b.tasks| && b.tasks[b.current.value].Ended?
      then AfterReceiver(r, b.tasks[b.current.value].outcome)
      else r
    case InlineWake(wake) =>
      if r.pc.Consuming? && Fits(r.pc.spot, wake) then InlineStep(r, wake) else r
  }

  function SendStep(r: Runner, e: SendEvent): Runner {
    match e
    case StartSent(ok) =>
      if !r.pc.SendingStart? then r
      else if ok then
        r.(recv := Receivers(r.recv.tasks + [Live(AtReceive, false)], Some(|r.recv.tasks|)), pc := Idle)
      else
        Offer(r.(io := r.io.(failedStarts := r.io.failedStarts + {|r.io.sent| - 1}), pc := Idle),
              ErrorFrame(StartingActivity))
    case AudioSent(_) => if r.pc.SendingAudio? then r.(pc := Idle) else r
    case EndSent(ok) =>
      if !r.pc.SendingEnd? then r
      else
        var r1 := r.(pc := if r.recv.current.Some? then AwaitReceiver else Idle);
        if ok then r1 else Offer(r1, ErrorFrame(EndingActivity))
    case TextSent(ok) =>
      if !r.pc.SendingText? then r
      else if ok then r.(pc := Consuming(AtReceive))
      else Offer(r.(pc := Idle), ErrorFrame(SendingUserText))
  }

  /** A cancelled task only ever receives its CancelledError. */
  function TaskStep(r: Runner, i: nat, e: TaskEvent): Runner {
    if i < |r.recv.tasks| && r.recv.tasks[i].Live? then
      var t := r.recv.tasks[i];
      match e
      case CancelDelivered =>
        if t.cancelled then r.(recv := r.recv.(tasks := r.recv.tasks[i := Ended(WasCancelled)])) else r
      case Woken(wake) =>
        if t.cancelled || !Fits(t.spot, wake) then r
        else
          var e := Resume(t.spot, wake, r.speaker);
          var t' := match e.next
                    case Suspended(spot) => Live(spot, false)
                    case Returned(alive) => Ended(if alive then ReturnedTrue else ReturnedFalse);
          Absorb(r, e).(recv := r.recv.(tasks := r.recv.tasks[i := t']))
    else r
  }

  function Step(r: Runner, e: Event): Runner {
    match e
    case Outside(o) => OutsideStep(r, o)
    case Life(l) => LifeStep(r, l)
    case Loop(l) => LoopStep(r, l)
    case Send(d) => SendStep(r, d)
    case Background(i, t) => TaskStep(r, i, t)
  }

  function Exec(r: Runner, events: seq<Event>): Runner {
    if events == [] then r else Step(Exec(r, events[..|events| - 1]), events[|events| - 1])
  }
}
