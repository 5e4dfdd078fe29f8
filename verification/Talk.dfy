/**
 * What a session sends and tells, in every run: the frames it passes on to Gemini, the answers it waits
 * for, the tool calls it reports, and the announcements that it makes to the client.
 */
module Talk {
  import opened Prelude
  import opened BoundedQueue
  import opened Session
  import opened Consumer
  import opened Offers
  import opened Runner
  import opened RunnerProofs
  import opened RunnerDelivery
  import opened Exits
  import Chat
  import ChatProofs

  // ---- Counting steps of a run --------------------------------------------------------------

  /** How many steps of the runner met this condition where they were made. */
  ghost function Steps(p: (Runner, Event) -> bool, repo: bool, es: seq<Chat.Event>): nat {
    if es == [] then 0
    else
      var before, e := es[..|es| - 1], es[|es| - 1];
      Steps(p, repo, before) + if e.Run? && !e.e.Outside? && p(RunnerAt(repo, before), e.e) then 1 else 0
  }

  // ---- Text turns ------------------------------------------------------------------------------

  ghost predicate TextSends(r: Runner, e: Event) {
    r.pc.SendingText? && e == Send(TextSent(true))
  }

  ghost predicate Wakes(r: Runner, e: Event) {
    e.Loop? && e.loop.InlineWake? && r.pc.Consuming? && Fits(r.pc.spot, e.loop.wake)
  }

  ghost predicate InlineCompletes(r: Runner, e: Event) {
    Wakes(r, e) && Completes(e.loop.wake)
  }

  ghost predicate InlineStops(r: Runner, e: Event) {
    (Wakes(r, e) && Failing(e.loop.wake)) || (r.pc.Consuming? && e == Life(Cancel))
  }

  ghost function One(b: bool): nat { if b then 1 else 0 }

  /** A text that was sent is waited for, and only that. */
  ghost predicate TextTurnStep(r: Runner, e: Event, s: Runner) {
    && One(s.pc.Consuming?) == One(r.pc.Consuming?) + One(TextSends(r, e))
                               - One(InlineCompletes(r, e)) - One(InlineStops(r, e))
    && s.tally.inlineTurns == r.tally.inlineTurns + One(InlineCompletes(r, e))
  }

  lemma LifeTextTurn(r: Runner, e: LifeEvent)
    ensures TextTurnStep(r, Life(e), LifeStep(r, e))
  {
  }

  lemma LoopTextTurn(r: Runner, e: LoopEvent)
    ensures TextTurnStep(r, Loop(e), LoopStep(r, e))
  {
    if e.InlineWake? && r.pc.Consuming? && Fits(r.pc.spot, e.wake) { InlineOutcome(r, e.wake); }
  }

  lemma SendTextTurn(r: Runner, e: SendEvent)
    ensures TextTurnStep(r, Send(e), SendStep(r, e))
  {
  }

  lemma TextTurns(r: Runner, e: Event)
    requires !e.Outside?
    ensures TextTurnStep(r, e, Step(r, e))
  {
    match e {
      case Life(l) => LifeTextTurn(r, l);
      case Loop(l) => LoopTextTurn(r, l);
      case Send(d) => SendTextTurn(r, d);
      case Background(_, _) =>
    }
  }

  /**
   * In every run each text sent with success has begun one inline activation; of these all but a
   * running one have completed their turn, or ended with their stream or a cancellation; and
   * inlineTurns counts the completed ones.
   */
  lemma {:induction false} TextsAreAnswered(repo: bool, es: seq<Chat.Event>)
    ensures var r := RunnerAt(repo, es);
            && Steps(TextSends, repo, es) ==
               Steps(InlineCompletes, repo, es) + Steps(InlineStops, repo, es) + One(r.pc.Consuming?)
            && r.tally.inlineTurns == Steps(InlineCompletes, repo, es)
  {
    if es != [] {
      var before, e := es[..|es| - 1], es[|es| - 1];
      TextsAreAnswered(repo, before);
      ChatStepRunner(Chat.Exec(Chat.Init(repo), before), e);
      if e.Run? && !e.e.Outside? { TextTurns(RunnerAt(repo, before), e.e); }
    }
  }

  // ---- What is sent ----------------------------------------------------------------------------

  /** The frames popped that are to be sent: voice frames always, a text unless a receiver is at work. */
  ghost function Wanted(repo: bool, es: seq<Chat.Event>): seq<InputFrame> {
    if es == [] then []
    else
      var before, e := es[..|es| - 1], es[|es| - 1];
      var r := RunnerAt(repo, before);
      Wanted(repo, before)
      + if e == Chat.Run(Loop(Pop)) && r.pc.Idle? && r.io.inbox.waiting != [] && IsWanted(r, r.io.inbox.waiting[0])
        then [r.io.inbox.waiting[0]] else []
  }

  lemma PopSends(r: Runner)
    requires r.pc.Idle? && r.io.inbox.waiting != []
    ensures var s, f := LoopStep(r, Pop), r.io.inbox.waiting[0];
            s.io.sent + Pending(s.pc) == r.io.sent + Pending(r.pc) + if IsWanted(r, f) then [f] else []
  {
    DispatchSends(r.(io := r.io.(inbox := Take(r.io.inbox))), r.io.inbox.waiting[0]);
    assert r.io.sent + Pending(r.pc) == r.io.sent;
  }

  /** In every run exactly these are sent to Gemini, each once and in order. */
  lemma {:induction false} SendsWhatIsWanted(repo: bool, es: seq<Chat.Event>)
    ensures var r := RunnerAt(repo, es); r.io.sent + Pending(r.pc) == Wanted(repo, es)
  {
    if es != [] {
      var before, e := es[..|es| - 1], es[|es| - 1];
      var r := RunnerAt(repo, before);
      SendsWhatIsWanted(repo, before);
      ChatStepRunner(Chat.Exec(Chat.Init(repo), before), e);
      if e.Run? && !e.e.Outside? { StepSends(r, e.e); }
      assert Wanted(repo, before) + [] == Wanted(repo, before);
    }
  }

  lemma StepSends(r: Runner, e: Event)
    requires !e.Outside?
    ensures var s := Step(r, e);
            s.io.sent + Pending(s.pc) == r.io.sent + Pending(r.pc)
              + if e == Loop(Pop) && r.pc.Idle? && r.io.inbox.waiting != [] && IsWanted(r, r.io.inbox.waiting[0])
                then [r.io.inbox.waiting[0]] else []
  {
    var sent := r.io.sent + Pending(r.pc);
    assert sent + [] == sent;
    if e == Loop(Pop) && r.pc.Idle? && r.io.inbox.waiting != [] {
      PopSends(r);
    } else if e.Loop? {
      LoopWithoutPop(r, e.loop);
    } else {
      RestKeepsSends(r, e);
    }
  }

  // ---- What is announced -----------------------------------------------------------------------

  /** The acknowledgements due for the frames taken. */
  ghost function ModeFrames(taken: seq<InputFrame>): seq<OutFrame> {
    if taken == [] then []
    else
      var f := taken[|taken| - 1];
      ModeFrames(taken[..|taken| - 1]) + if f.SetSpeaker? then [SpeakerModeUpdated(f.enabled)] else []
  }

  /** What a step announces: that the session is ready, or a new speaker mode. */
  ghost function Announced(r: Runner, e: Event): seq<OutFrame> {
    match e
    case Life(Connected) => if r.pc.Connecting? then [SessionReady(r.speaker)] else []
    case Loop(Pop) =>
      if r.pc.Idle? && r.io.inbox.waiting != [] && r.io.inbox.waiting[0].SetSpeaker?
      then [SpeakerModeUpdated(r.io.inbox.waiting[0].enabled)] else []
    case _ => []
  }

  /** The step offers its announcement, or only frames that announce nothing. */
  ghost predicate Announces(r: Runner, e: Event, s: Runner) {
    Offered(r, s, Announced(r, e))
    || (Announced(r, e) == [] && exists fs :: Offered(r, s, fs) && FromConsumer(fs))
  }

  lemma OffersOne(r: Runner, s: Runner, fs: seq<OutFrame>)
    requires Offered(r, s, fs) && FromConsumer(fs)
    ensures exists gs :: Offered(r, s, gs) && FromConsumer(gs)
  {
  }

  lemma FinallyOffers(r: Runner, status: Status)
    ensures var s := EnterFinally(r, status);
            Offered(r, s, []) || Offered(r, s, [SessionEnded, OutboxStop])
    ensures var s := EnterFinally(Offer(r, ErrorFrame(WholeSession)), status);
            Offered(r, s, [ErrorFrame(WholeSession)])
            || Offered(r, s, [ErrorFrame(WholeSession), SessionEnded, OutboxStop])
  {
  }

  lemma LifeAnnounces(r: Runner, e: LifeEvent)
    ensures Announces(r, Life(e), LifeStep(r, e))
  {
    match e {
      case Begin => assert Offered(r, LifeStep(r, e), []);
      case Connected => assert Offered(r, LifeStep(r, e), Announced(r, Life(e)));
      case ConnectFailed => FinallyOffers(r, Error);
      case Cancel => CancelAnnounces(r);
      case Left(ok) =>
        FinallyOffers(r, if !ok then Error else if r.pc.Leaving? && r.pc.cancelled then Closed else r.status);
      case RecordDone => assert r.pc.Recording? ==> Offered(r, LifeStep(r, e), [SessionEnded, OutboxStop]);
    }
  }

  lemma CancelAnnounces(r: Runner)
    ensures Announces(r, Life(Cancel), CancelRunner(r))
  {
    FinallyOffers(r, Closed);
  }

  lemma LoopAnnounces(r: Runner, e: LoopEvent)
    ensures Announces(r, Loop(e), LoopStep(r, e))
  {
    match e {
      case Pop => assert Offered(r, LoopStep(r, e), Announced(r, Loop(e)));
      case InlineWake(wake) =>
        if r.pc.Consuming? && Fits(r.pc.spot, wake) {
          var fs := Resume(r.pc.spot, wake, r.speaker).offers;
          PutAllEffect(r.io.outbox, fs);
          ConsumerOffers(r.pc.spot, wake, r.speaker);
          OffersOne(r, LoopStep(r, e), fs);
        }
      case _ => assert Offered(r, LoopStep(r, e), []);
    }
  }

  lemma SendAnnounces(r: Runner, e: SendEvent)
    ensures Announces(r, Send(e), SendStep(r, e))
  {
    var s := SendStep(r, e);
    assert Offered(r, s, []) || Offered(r, s, [ErrorFrame(StartingActivity)])
        || Offered(r, s, [ErrorFrame(EndingActivity)]) || Offered(r, s, [ErrorFrame(SendingUserText)]);
  }

  lemma TaskAnnounces(r: Runner, i: nat, e: TaskEvent)
    ensures Announces(r, Background(i, e), TaskStep(r, i, e))
  {
    if e.Woken? && CanWake(r, i, e.wake) {
      var fs := Resume(r.recv.tasks[i].spot, e.wake, r.speaker).offers;
      PutAllEffect(r.io.outbox, fs);
      ConsumerOffers(r.recv.tasks[i].spot, e.wake, r.speaker);
      OffersOne(r, TaskStep(r, i, e), fs);
    } else {
      assert Offered(r, TaskStep(r, i, e), []);
    }
  }

  lemma StepAnnounces(r: Runner, e: Event)
    requires !e.Outside?
    ensures Announces(r, e, Step(r, e))
  {
    match e {
      case Life(l) => LifeAnnounces(r, l);
      case Loop(l) => LoopAnnounces(r, l);
      case Send(d) => SendAnnounces(r, d);
      case Background(i, t) => TaskAnnounces(r, i, t);
    }
  }

  /** Every mode request taken is acknowledged, in order and with its own value, and nothing else is. */
  ghost predicate ModesEchoed(r: Runner) {
    Filter(IsMode, r.io.outbox.offered) == ModeFrames(r.io.inbox.taken)
  }

  lemma NoModes(fs: seq<OutFrame>)
    requires FromConsumer(fs)
    ensures Filter(IsMode, fs) == []
  {
    FilterUniform(IsMode, fs, false);
  }

  lemma AnnouncedModes(r: Runner, e: Event, s: Runner)
    requires Announces(r, e, s)
    ensures Filter(IsMode, s.io.outbox.offered) ==
            Filter(IsMode, r.io.outbox.offered) + Filter(IsMode, Announced(r, e))
  {
    var out := r.io.outbox.offered;
    if Offered(r, s, Announced(r, e)) {
      FilterConcat(IsMode, out, Announced(r, e));
    } else {
      var fs :| Offered(r, s, fs) && FromConsumer(fs);
      FilterConcat(IsMode, out, fs);
      NoModes(fs);
    }
  }

  lemma StepTakes(r: Runner, e: Event)
    requires !e.Outside?
    ensures Step(r, e).io.inbox.taken ==
            r.io.inbox.taken
            + if e == Loop(Pop) && r.pc.Idle? && r.io.inbox.waiting != [] then [r.io.inbox.waiting[0]] else []
  {
    assert r.io.inbox.taken + [] == r.io.inbox.taken;
    match e {
      case Life(l) => LifeTakesNothing(r, l);
      case Loop(l) => LoopTakes(r, l);
      case _ =>
    }
  }

  lemma LifeTakesNothing(r: Runner, e: LifeEvent)
    ensures LifeStep(r, e).io.inbox == r.io.inbox
  {
  }

  lemma LoopTakes(r: Runner, e: LoopEvent)
    ensures LoopStep(r, e).io.inbox ==
            if e.Pop? && r.pc.Idle? && r.io.inbox.waiting != [] then Take(r.io.inbox) else r.io.inbox
  {
  }

  /** The acknowledgements that a step owes for what it takes. */
  lemma AnnouncedIsOwed(r: Runner, e: Event)
    requires !e.Outside?
    ensures var pops := e == Loop(Pop) && r.pc.Idle? && r.io.inbox.waiting != [];
            Filter(IsMode, Announced(r, e)) == if pops then ModeFrames([r.io.inbox.waiting[0]]) else []
  {
    var fs := Announced(r, e);
    if fs != [] { FilterUniform(IsMode, fs, fs[0].SpeakerModeUpdated?); }
    if e == Loop(Pop) && r.pc.Idle? && r.io.inbox.waiting != [] {
      var f := r.io.inbox.waiting[0];
      assert [f][..0] == [];
    }
  }

  lemma ModeFramesSnoc(taken: seq<InputFrame>, f: InputFrame)
    ensures ModeFrames(taken + [f]) == ModeFrames(taken) + ModeFrames([f])
  {
    assert (taken + [f])[..|taken|] == taken && [f][..0] == [];
  }

  lemma StepEchoes(r: Runner, e: Event)
    requires !e.Outside? && ModesEchoed(r)
    ensures ModesEchoed(Step(r, e))
  {
    var s := Step(r, e);
    StepAnnounces(r, e);
    AnnouncedModes(r, e, s);
    AnnouncedIsOwed(r, e);
    StepTakes(r, e);
    EchoesAddUp(r, s, Filter(IsMode, Announced(r, e)),
                if e == Loop(Pop) && r.pc.Idle? && r.io.inbox.waiting != [] then [r.io.inbox.waiting[0]] else []);
  }

  lemma EchoesAddUp(r: Runner, s: Runner, fs: seq<OutFrame>, took: seq<InputFrame>)
    requires ModesEchoed(r) && Filter(IsMode, s.io.outbox.offered) == Filter(IsMode, r.io.outbox.offered) + fs
    requires s.io.inbox.taken == r.io.inbox.taken + took && |took| <= 1
    requires fs == if took == [] then [] else ModeFrames(took)
    ensures ModesEchoed(s)
  {
    if took == [] {
      assert r.io.inbox.taken + [] == r.io.inbox.taken;
    } else {
      assert took == [took[0]];
      ModeFramesSnoc(r.io.inbox.taken, took[0]);
    }
  }

  lemma {:induction false} ModesAreEchoed(repo: bool, es: seq<Chat.Event>)
    ensures ModesEchoed(RunnerAt(repo, es))
  {
    if es != [] {
      var before, e := es[..|es| - 1], es[|es| - 1];
      ModesAreEchoed(repo, before);
      ChatStepRunner(Chat.Exec(Chat.Init(repo), before), e);
      if e.Run? && !e.e.Outside? { StepEchoes(RunnerAt(repo, before), e.e); }
    }
  }

  /** Before the connection nothing is told; then session_ready comes first of all. */
  ghost predicate ReadyFirst(r: Runner) {
    var out := r.io.outbox.offered;
    && (r.pc.NotStarted? || r.pc.Connecting? ==> out == [] && !r.speaker)
    && (!(r.pc.NotStarted? || r.pc.Connecting? || InFinally(r.pc)) ==> out != [] && out[0] == SessionReady(false))
    && (forall i :: 1 <= i < |out| ==> !IsReady(out[i]))
  }

  lemma StepReadyFirst(r: Runner, e: Event)
    requires !e.Outside? && ReadyFirst(r) && Tracked(r.pc, r.recv)
    ensures ReadyFirst(Step(r, e))
  {
    StepAnnounces(r, e);
    StepPhase(r, e);
    var s := Step(r, e);
    if Offered(r, s, Announced(r, e)) {
    } else {
      var fs :| Offered(r, s, fs) && FromConsumer(fs);
    }
  }

  /** How a step moves between the phases of the runner's life. */
  lemma StepPhase(r: Runner, e: Event)
    requires !e.Outside? && Tracked(r.pc, r.recv)
    ensures var s := Step(r, e);
            && (s.pc.NotStarted? || s.pc.Connecting? ==>
                  (r.pc.NotStarted? || r.pc.Connecting?) && s.io.outbox == r.io.outbox && s.speaker == r.speaker)
            && ((r.pc.NotStarted? || r.pc.Connecting?) && !(s.pc.NotStarted? || s.pc.Connecting? || InFinally(s.pc))
                ==> r.pc.Connecting? && e == Life(Connected))
            && (InFinally(r.pc) ==> InFinally(s.pc))
  {
    match e {
      case Life(l) =>
      case Loop(l) =>
      case Send(d) =>
      case Background(i, t) =>
    }
  }

  lemma {:induction false} ReadyComesFirst(repo: bool, es: seq<Chat.Event>)
    ensures ReadyFirst(RunnerAt(repo, es))
  {
    if es != [] {
      var before, e := es[..|es| - 1], es[|es| - 1];
      ReadyComesFirst(repo, before);
      ChatProofs.RunKeepsChatInv(repo, before);
      ChatStepRunner(Chat.Exec(Chat.Init(repo), before), e);
      if e.Run? && !e.e.Outside? { StepReadyFirst(RunnerAt(repo, before), e.e); }
    }
  }

  // ---- Tool calls ------------------------------------------------------------------------------

  /** A consumer, inline or in a background task, and where it is. */
  ghost predicate IsAt(r: Runner, task: Option<nat>, spot: Spot) {
    match task
    case None => r.pc == Consuming(spot)
    case Some(i) => i < |r.recv.tasks| && r.recv.tasks[i] == Live(spot, false)
  }

  ghost function Wake(r: Runner, task: Option<nat>, wake: Consumer.Wake): Runner {
    match task
    case None => Step(r, Loop(InlineWake(wake)))
    case Some(i) => Step(r, Background(i, Woken(wake)))
  }

  ghost function WakeAll(r: Runner, task: Option<nat>, results: seq<string>): Runner
    decreases |results|
  {
    if results == [] then r else WakeAll(Wake(r, task, ToolReturned(results[0])), task, results[1..])
  }

  lemma OneToolReturns(r: Runner, task: Option<nat>, todo: seq<ToolRequest>, result: string)
    requires todo != [] && IsAt(r, task, AtTool(todo))
    ensures var s := Wake(r, task, ToolReturned(result));
            && Offered(r, s, [ToolCall(todo[0].name, todo[0].callId, result)])
            && s.tally.toolCalls == r.tally.toolCalls + 1
            && IsAt(s, task, if |todo| == 1 then AtToolReply else AtTool(todo[1..]))
  {
    var fs := [ToolCall(todo[0].name, todo[0].callId, result)];
    PutAllEffect(r.io.outbox, fs);
    assert |todo| == 1 <==> todo[1..] == [];
  }

  /**
   * Any consumer of the runner runs the requests of a message one by one, reports each result with
   * its own request, counts them, and is then sending the reply.
   */
  lemma {:induction false} ToolsAreRun(r: Runner, task: Option<nat>, todo: seq<ToolRequest>, results: seq<string>)
    requires todo != [] && |results| == |todo| && IsAt(r, task, AtTool(todo))
    ensures var s := WakeAll(r, task, results);
            && IsAt(s, task, AtToolReply) && s.tally.toolCalls == r.tally.toolCalls + |todo|
            && Offered(r, s,
                 seq(|todo|, i requires 0 <= i < |todo| => ToolCall(todo[i].name, todo[i].callId, results[i])))
    decreases |todo|
  {
    OneToolReturns(r, task, todo, results[0]);
    var s := Wake(r, task, ToolReturned(results[0]));
    if |todo| == 1 {
      assert WakeAll(r, task, results) == s;
    } else {
      ToolsAreRun(s, task, todo[1..], results[1..]);
    }
  }
}
