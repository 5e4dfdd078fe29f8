/** Voice brackets in every run of a session: exactly which messages break them, with any number of connections. */
module Bracketing {
  import opened Prelude
  import opened BoundedQueue
  import opened Session
  import Runner
  import opened RunnerDelivery
  import opened Chat
  import opened ChatProofs

  // ---- Bracketed sequences of frames --------------------------------------------------------

  /** An activity_start has come with no activity_end since. */
  ghost function OpenAfter(xs: seq<InputFrame>): bool {
    if xs == [] then false
    else
      match xs[|xs| - 1]
      case ActivityStart => true
      case ActivityEnd => false
      case _ => OpenAfter(xs[..|xs| - 1])
  }

  ghost predicate NeedsOpen(f: InputFrame) { f.AudioChunk? || f.ActivityEnd? }

  /** Audio and activity_end occur only inside an open activity. */
  ghost predicate Nested(xs: seq<InputFrame>) {
    xs == [] || (Nested(xs[..|xs| - 1]) && (NeedsOpen(xs[|xs| - 1]) ==> OpenAfter(xs[..|xs| - 1])))
  }

  /** The same, without a running flag: some earlier activity_start has no activity_end after it. */
  ghost predicate OpenedBefore(xs: seq<InputFrame>, i: nat) {
    exists j :: 0 <= j < i <= |xs| && xs[j].ActivityStart? && forall k :: j < k < i ==> !xs[k].ActivityEnd?
  }

  ghost predicate Bracketed(xs: seq<InputFrame>) {
    forall i :: 0 <= i < |xs| && NeedsOpen(xs[i]) ==> OpenedBefore(xs, i)
  }

  lemma {:induction false} OpenIsOpened(xs: seq<InputFrame>, n: nat)
    requires n <= |xs| && OpenAfter(xs[..n])
    ensures OpenedBefore(xs, n)
  {
    assert n > 0;
    assert xs[..n][..n - 1] == xs[..n - 1] && xs[..n][n - 1] == xs[n - 1];
    if !xs[n - 1].ActivityStart? {
      OpenIsOpened(xs, n - 1);
      var j :| 0 <= j < n - 1 && xs[j].ActivityStart? && forall k :: j < k < n - 1 ==> !xs[k].ActivityEnd?;
    }
  }

  lemma {:induction false} NestedIsBracketed(xs: seq<InputFrame>, n: nat)
    requires n <= |xs| && Nested(xs[..n])
    ensures forall i :: 0 <= i < n && NeedsOpen(xs[i]) ==> OpenedBefore(xs, i)
  {
    if n > 0 {
      assert xs[..n][..n - 1] == xs[..n - 1] && xs[..n][n - 1] == xs[n - 1];
      NestedIsBracketed(xs, n - 1);
      if NeedsOpen(xs[n - 1]) {
        OpenIsOpened(xs, n - 1);
      }
    }
  }

  lemma {:induction false} OpenedIsOpen(xs: seq<InputFrame>, n: nat)
    requires n <= |xs| && OpenedBefore(xs, n)
    ensures OpenAfter(xs[..n])
  {
    var j :| 0 <= j < n && xs[j].ActivityStart? && forall k :: j < k < n ==> !xs[k].ActivityEnd?;
    assert xs[..n][..n - 1] == xs[..n - 1] && xs[..n][n - 1] == xs[n - 1];
    if j < n - 1 {
      assert OpenedBefore(xs, n - 1);
      OpenedIsOpen(xs, n - 1);
    }
  }

  lemma {:induction false} NestedPrefix(a: seq<InputFrame>, b: seq<InputFrame>)
    requires Nested(a + b)
    ensures Nested(a)
  {
    if b == [] {
      assert a + b == a;
    } else {
      assert (a + b)[..|a + b| - 1] == a + b[..|b| - 1];
      NestedPrefix(a, b[..|b| - 1]);
    }
  }

  lemma Extend(xs: seq<InputFrame>, f: InputFrame)
    ensures Nested(xs + [f]) <==> Nested(xs) && (NeedsOpen(f) ==> OpenAfter(xs))
    ensures OpenAfter(xs + [f]) <==> f.ActivityStart? || (!f.ActivityEnd? && OpenAfter(xs))
  {
    assert (xs + [f])[..|xs|] == xs;
  }

  /** Only the voice frames matter. */
  lemma {:induction false} NestedVoice(xs: seq<InputFrame>)
    ensures Nested(xs) <==> Nested(Filter(IsVoice, xs))
    ensures OpenAfter(xs) <==> OpenAfter(Filter(IsVoice, xs))
  {
    if xs != [] {
      var n := |xs| - 1;
      NestedVoice(xs[..n]);
      FilterSnoc(IsVoice, xs[..n], xs[n]);
      assert xs == xs[..n] + [xs[n]];
      Extend(Filter(IsVoice, xs[..n]), xs[n]);
      Extend(xs[..n], xs[n]);
      assert Filter(IsVoice, xs[..n]) + [] == Filter(IsVoice, xs[..n]);
    }
  }

  /** What the filter guarantees of the frame it lets through. */
  ghost predicate FilterRule(voice: bool, f: Filtered) {
    && (f.frame.Some? && NeedsOpen(f.frame.value) ==> voice)
    && (f.voice ==> f.frame == Some(ActivityStart) || (voice && f.frame != Some(ActivityEnd)))
  }

  lemma FilterObeysRule(voice: bool, m: ClientMessage)
    ensures FilterRule(voice, FilterMessage(voice, m))
  {
  }

  // ---- Sound states -------------------------------------------------------------------------

  /** The frames that have got into the inbox. */
  ghost function Frames(q: Queue<InputFrame>): seq<InputFrame> {
    q.taken + q.waiting
  }

  predicate Full(q: Queue<InputFrame>) {
    |q.waiting| >= q.cap
  }

  /** The accepted frames are nested, and every raised voice flag stands for an open activity. */
  ghost predicate SoundFrames(xs: seq<InputFrame>, voices: map<nat, bool>) {
    Nested(xs) && forall c :: c in voices && voices[c] ==> OpenAfter(xs)
  }

  ghost predicate Sound(s: Chat) {
    SoundFrames(Frames(s.r.io.inbox), s.voices)
  }

  ghost predicate OtherRaised(voices: map<nat, bool>, c: nat) {
    exists d :: d in voices && d != c && voices[d]
  }

  /**
   * A voice_start that is refused while no activity is open, or a voice_end that is accepted
   * while the flag of another receive loop is up.
   */
  ghost predicate HarmfulMessage(xs: seq<InputFrame>, full: bool, voices: map<nat, bool>, c: nat, m: ClientMessage) {
    && c in voices
    && match m
       case VoiceStart => full && !OpenAfter(xs)
       case VoiceEnd => voices[c] && !full && OtherRaised(voices, c)
       case _ => false
  }

  ghost predicate Harmful(s: Chat, e: Event) {
    e.Receive? && HarmfulMessage(Frames(s.r.io.inbox), Full(s.r.io.inbox), s.voices, e.c, e.m)
  }

  /** The frames accepted after a message, if its frame is refused by a full inbox. */
  ghost function FramesAfter(xs: seq<InputFrame>, full: bool, f: Filtered): seq<InputFrame> {
    if f.frame.Some? && !full then xs + [f.frame.value] else xs
  }

  function VoicesAfter(voices: map<nat, bool>, c: nat, f: Filtered): map<nat, bool> {
    if f.open then voices[c := f.voice] else voices - {c}
  }

  lemma StartSoundIff(xs: seq<InputFrame>, full: bool, voices: map<nat, bool>, c: nat)
    requires c in voices && SoundFrames(xs, voices)
    ensures SoundFrames(if full then xs else xs + [ActivityStart], voices[c := true]) <==> !full || OpenAfter(xs)
  {
    Extend(xs, ActivityStart);
    assert voices[c := true][c];
  }

  lemma EndSoundIff(xs: seq<InputFrame>, full: bool, voices: map<nat, bool>, c: nat)
    requires c in voices && voices[c] && SoundFrames(xs, voices)
    ensures SoundFrames(if full then xs else xs + [ActivityEnd], voices[c := false])
            <==> full || !OtherRaised(voices, c)
  {
    Extend(xs, ActivityEnd);
    if !full && OtherRaised(voices, c) {
      var d :| d in voices && d != c && voices[d];
      assert voices[c := false][d];
    }
  }

  /** Any other message keeps soundness. */
  lemma OtherKeepsSound(xs: seq<InputFrame>, full: bool, voices: map<nat, bool>, c: nat, m: ClientMessage)
    requires c in voices && SoundFrames(xs, voices) && !m.VoiceStart? && !(m.VoiceEnd? && voices[c])
    ensures var f := FilterMessage(voices[c], m); SoundFrames(FramesAfter(xs, full, f), VoicesAfter(voices, c, f))
  {
    var f := FilterMessage(voices[c], m);
    FilterObeysRule(voices[c], m);
    if f.frame.Some? { Extend(xs, f.frame.value); }
  }

  lemma MessageSoundIff(xs: seq<InputFrame>, full: bool, voices: map<nat, bool>, c: nat, m: ClientMessage)
    requires c in voices && SoundFrames(xs, voices)
    ensures var f := FilterMessage(voices[c], m);
            SoundFrames(FramesAfter(xs, full, f), VoicesAfter(voices, c, f))
            <==> !HarmfulMessage(xs, full, voices, c, m)
  {
    if m.VoiceStart? {
      StartSoundIff(xs, full, voices, c);
    } else if m.VoiceEnd? && voices[c] {
      EndSoundIff(xs, full, voices, c);
    } else {
      OtherKeepsSound(xs, full, voices, c, m);
    }
  }

  lemma PutFrames(q: Queue<InputFrame>, f: InputFrame)
    ensures Frames(Put(q, f)) == if Full(q) then Frames(q) else Frames(q) + [f]
  {
  }

  lemma ReceiveFrames(s: Chat, c: nat, m: ClientMessage)
    requires c in s.voices
    ensures var t, f := ReceiveStep(s, c, m), FilterMessage(s.voices[c], m);
            && Frames(t.r.io.inbox) == FramesAfter(Frames(s.r.io.inbox), Full(s.r.io.inbox), f)
            && t.voices == VoicesAfter(s.voices, c, f)
  {
    var f := FilterMessage(s.voices[c], m);
    if f.frame.Some? { PutFrames(s.r.io.inbox, f.frame.value); }
  }

  /** The runner only moves inbox frames from waiting to taken. */
  lemma RunKeepsFrames(r: Runner.Runner, e: Runner.Event)
    requires !e.Outside?
    ensures var p, q := r.io.inbox, Runner.Step(r, e).io.inbox;
            && q.offered == p.offered && q.depths == p.depths && q.cap == p.cap
            && q.taken + q.waiting == p.taken + p.waiting
  {
    var p := r.io.inbox;
    if p.waiting != [] {
      assert (p.taken + [p.waiting[0]]) + p.waiting[1..] == p.taken + p.waiting;
    }
    match e {
      case Life(l) => LifeKeepsInbox(r, l);
      case Loop(l) => LoopKeepsInbox(r, l);
      case _ =>
    }
  }

  lemma LifeKeepsInbox(r: Runner.Runner, e: Runner.LifeEvent)
    ensures Runner.LifeStep(r, e).io.inbox == r.io.inbox
  {
  }

  lemma LoopKeepsInbox(r: Runner.Runner, e: Runner.LoopEvent)
    ensures var q := Runner.LoopStep(r, e).io.inbox;
            q == r.io.inbox || (r.io.inbox.waiting != [] && q == Take(r.io.inbox))
  {
  }

  /**
   * From a sound state a step leads to a sound state exactly if it is neither a voice_start refused
   * while no activity is open nor a voice_end accepted while the flag of another loop is up.
   */
  lemma StepSoundIff(s: Chat, e: Event)
    requires Sound(s)
    ensures Sound(Step(s, e)) <==> !Harmful(s, e)
  {
    match e {
      case Receive(c, m) =>
        if c in s.voices {
          ReceiveFrames(s, c, m);
          MessageSoundIff(Frames(s.r.io.inbox), Full(s.r.io.inbox), s.voices, c, m);
        }
      case RequestStop =>
        PutFrames(s.r.io.inbox, Stop);
        Extend(Frames(s.r.io.inbox), Stop);
      case Run(re) => if !re.Outside? { RunKeepsFrames(s.r, re); }
      case _ =>
    }
  }

  ghost predicate AlwaysSound(repo: bool, es: seq<Event>) {
    Sound(Exec(Init(repo), es)) && (es != [] ==> AlwaysSound(repo, es[..|es| - 1]))
  }

  /** No message of the run was harmful where it came. */
  ghost predicate Harmless(repo: bool, es: seq<Event>) {
    es == [] ||
      (Harmless(repo, es[..|es| - 1]) && !Harmful(Exec(Init(repo), es[..|es| - 1]), es[|es| - 1]))
  }

  /** A run is sound at every moment exactly if no message in it was harmful. */
  lemma {:induction false} SoundIffHarmless(repo: bool, es: seq<Event>)
    ensures AlwaysSound(repo, es) <==> Harmless(repo, es)
  {
    if es != [] {
      var before := es[..|es| - 1];
      SoundIffHarmless(repo, before);
      if AlwaysSound(repo, before) { StepSoundIff(Exec(Init(repo), before), es[|es| - 1]); }
    }
  }

  // ---- What is sent to Gemini ---------------------------------------------------------------

  /** Frames are nested exactly if every audio and activity_end among them is inside an activity. */
  lemma BracketedIffNested(xs: seq<InputFrame>)
    ensures Bracketed(xs) <==> Nested(xs)
  {
    assert xs[..|xs|] == xs;
    if Nested(xs) { NestedIsBracketed(xs, |xs|); }
    if Bracketed(xs) { BracketedIsNested(xs, |xs|); }
  }

  lemma {:induction false} BracketedIsNested(xs: seq<InputFrame>, n: nat)
    requires n <= |xs| && Bracketed(xs)
    ensures Nested(xs[..n])
  {
    if n > 0 {
      BracketedIsNested(xs, n - 1);
      assert xs[..n][..n - 1] == xs[..n - 1] && xs[..n][n - 1] == xs[n - 1];
      if NeedsOpen(xs[n - 1]) { OpenedIsOpen(xs, n - 1); }
    }
  }

  lemma NestedFramesSendBracketed(r: Runner.Runner)
    requires InOrder(r) && Nested(Frames(r.io.inbox))
    ensures Bracketed(r.io.sent)
  {
    var io := r.io;
    NestedPrefix(io.inbox.taken, io.inbox.waiting);
    NestedVoice(io.inbox.taken);
    NestedVoice(io.sent + Pending(r.pc));
    NestedPrefix(io.sent, Pending(r.pc));
    BracketedIffNested(io.sent);
  }

  /** From an idle runner with nothing waiting, audio under a flag raised outside any activity is sent unbracketed. */
  lemma RaisedFlagSendsUnbracketed(s: Chat, c: nat)
    requires InOrder(s.r) && s.r.pc.Idle? && s.r.io.inbox.waiting == [] && !Full(s.r.io.inbox)
    requires c in s.voices && s.voices[c] && !OpenAfter(Frames(s.r.io.inbox))
    ensures var t := Step(Step(s, Receive(c, Binary([0]))), Run(Runner.Loop(Runner.Pop)));
            t.r.io.sent == s.r.io.sent + [AudioChunk([0])] && !Bracketed(t.r.io.sent)
  {
    var sent := s.r.io.sent;
    assert Frames(s.r.io.inbox) == s.r.io.inbox.taken && sent + Pending(s.r.pc) == sent;
    NestedVoice(sent);
    NestedVoice(s.r.io.inbox.taken);
    Extend(sent, AudioChunk([0]));
    BracketedIffNested(sent + [AudioChunk([0])]);
    PopSendsAudio(s, c);
  }

  lemma PopSendsAudio(s: Chat, c: nat)
    requires s.r.pc.Idle? && s.r.io.inbox.waiting == [] && !Full(s.r.io.inbox) && c in s.voices && s.voices[c]
    ensures var t := Step(Step(s, Receive(c, Binary([0]))), Run(Runner.Loop(Runner.Pop)));
            t.r.io.sent == s.r.io.sent + [AudioChunk([0])]
  {
    var t := Step(s, Receive(c, Binary([0])));
    assert t.r.io.inbox.waiting == [AudioChunk([0])] && t.r.pc.Idle?;
  }

  /** A harmful step leaves some flag raised outside any activity. */
  lemma HarmRaisesFlag(s: Chat, e: Event)
    requires Sound(s) && Harmful(s, e)
    ensures var t := Step(s, e); exists c :: c in t.voices && t.voices[c] && !OpenAfter(Frames(t.r.io.inbox))
  {
    var t := Step(s, e);
    var xs := Frames(s.r.io.inbox);
    ReceiveFrames(s, e.c, e.m);
    if e.m.VoiceStart? {
      assert t.voices[e.c];
    } else {
      Extend(xs, ActivityEnd);
      var d :| d in s.voices && d != e.c && s.voices[d];
      assert t.voices[d];
    }
  }

  // ---- One connection at a time -------------------------------------------------------------

  /** The frames that had got into the inbox before offer i. */
  ghost function AcceptedBefore(q: Queue<InputFrame>, i: nat): seq<InputFrame>
    requires |q.offered| == |q.depths| && i <= |q.offered|
  {
    Accepted(q.offered[..i], q.depths[..i], q.cap)
  }

  /** No activity_start has met a full inbox, unless the accepted frames had an open activity already. */
  ghost predicate NoStartLost(q: Queue<InputFrame>)
    requires |q.offered| == |q.depths|
  {
    forall i :: 0 <= i < |q.offered| && q.offered[i].ActivityStart? ==>
      q.depths[i] < q.cap || OpenAfter(AcceptedBefore(q, i))
  }

  lemma PutGrows(q: Queue<InputFrame>, f: InputFrame)
    requires Accounted(q)
    ensures var p := Put(q, f);
            && |p.offered| == |p.depths|
            && (NoStartLost(p) ==> NoStartLost(q))
            && (NoStartLost(p) && f.ActivityStart? ==> !Full(q) || OpenAfter(Frames(q)))
  {
    var p := Put(q, f);
    var n := |q.offered|;
    forall i | 0 <= i <= n ensures AcceptedBefore(p, i) == Accepted(q.offered[..i], q.depths[..i], q.cap) {
      assert p.offered[..i] == q.offered[..i] && p.depths[..i] == q.depths[..i];
    }
    assert q.offered[..n] == q.offered && q.depths[..n] == q.depths;
    assert forall i :: 0 <= i < n ==> p.offered[i] == q.offered[i] && p.depths[i] == q.depths[i];
    assert p.offered[n] == f && p.depths[n] == |q.waiting|;
  }

  ghost predicate OneLoop(s: Chat) {
    !s.overlapped ==> forall c, d :: c in s.voices && d in s.voices ==> c == d
  }

  lemma StepKeepsOneLoop(s: Chat, e: Event)
    requires OneLoop(s)
    ensures OneLoop(Step(s, e)) && (s.overlapped ==> Step(s, e).overlapped)
  {
  }

  /** What the end of a run says about losses, its beginning said too; and a lost start is a loss. */
  lemma StepKeepsLosses(s: Chat, e: Event)
    requires Accounted(s.r.io.inbox)
    ensures var q := Step(s, e).r.io.inbox;
            && |q.offered| == |q.depths|
            && (NoStartLost(q) ==> NoStartLost(s.r.io.inbox))
            && (NoStartLost(q) && e.Receive? && e.c in s.voices && e.m.VoiceStart? ==>
                  !Full(s.r.io.inbox) || OpenAfter(Frames(s.r.io.inbox)))
  {
    match e {
      case Receive(c, m) =>
        if c in s.voices && FilterMessage(s.voices[c], m).frame.Some? {
          PutGrows(s.r.io.inbox, FilterMessage(s.voices[c], m).frame.value);
        }
      case RequestStop => PutGrows(s.r.io.inbox, Stop);
      case Run(re) => if !re.Outside? { RunKeepsFrames(s.r, re); }
      case _ =>
    }
  }

  /** With one receive loop at a time and no activity_start lost, no message is harmful. */
  lemma {:induction false} OneLoopIsHarmless(repo: bool, es: seq<Event>)
    ensures var s := Exec(Init(repo), es);
            && OneLoop(s) && |s.r.io.inbox.offered| == |s.r.io.inbox.depths|
            && (!s.overlapped && NoStartLost(s.r.io.inbox) ==> Harmless(repo, es))
  {
    if es != [] {
      var s := Exec(Init(repo), es[..|es| - 1]);
      OneLoopIsHarmless(repo, es[..|es| - 1]);
      RunKeepsChatInv(repo, es[..|es| - 1]);
      StepKeepsOneLoop(s, es[|es| - 1]);
      StepKeepsLosses(s, es[|es| - 1]);
    }
  }

  /**
   * In every run without a harmful message, audio and activity_end are sent to Gemini only after an
   * activity_start with no activity_end since, whatever else was dropped, interrupted or cancelled
   * and however many connections there were; so in particular with one receive loop at a time and
   * no activity_start refused by a full inbox while no activity was open.
   */
  lemma {:induction false} VoiceBracketing(repo: bool, es: seq<Event>)
    ensures var s := Exec(Init(repo), es);
            && |s.r.io.inbox.offered| == |s.r.io.inbox.depths|
            && (Harmless(repo, es) ==> Bracketed(s.r.io.sent))
            && (!s.overlapped && NoStartLost(s.r.io.inbox) ==> Harmless(repo, es))
  {
    RunKeepsChatInv(repo, es);
    OneLoopIsHarmless(repo, es);
    if Harmless(repo, es) {
      SoundIffHarmless(repo, es);
      NestedFramesSendBracketed(Exec(Init(repo), es).r);
    }
  }
}
