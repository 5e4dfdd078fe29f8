/** The per-session state: frames, the two bounded queues, speaker flag, counters. */
module Session {
  import opened Prelude
  import opened BoundedQueue

  newtype Byte = x: int | 0 <= x < 256
  type Bytes = seq<Byte>

  const INBOX_MAX_SIZE: nat := 512
  const OUTBOX_MAX_SIZE: nat := 256

  datatype InputFrame =
    | Text(text: string)
    | AudioChunk(pcm: Bytes)
    | ActivityStart
    | ActivityEnd
    | SetSpeaker(enabled: bool)
    | Stop

  /** What failed when an error frame is offered. */
  datatype ErrorSource =
    | Receiving
    | SendingToolReply
    | StartingActivity
    | EndingActivity
    | SendingUserText
    | WholeSession

  datatype OutFrame =
    | AudioPcm(pcm: Bytes)
    | SessionReady(speaker: bool)
    | AssistantText(text: string)
    | UserTranscript(text: string)
    | ToolCall(tool: string, callId: string, result: string)
    | TurnComplete
    | SpeakerModeUpdated(enabled: bool)
    | ErrorFrame(source: ErrorSource)
    | SessionEnded
    | OutboxStop

  /** The mutable session object; the two ghost queues record the history of the real ones. */
  class SessionState {
    var inbox: seq<InputFrame>
    var outbox: seq<OutFrame>
    var speaker: bool
    var lastActive: real
    var turns: nat
    var toolCalls: nat
    ghost var inboxQ: Queue<InputFrame>
    ghost var outboxQ: Queue<OutFrame>

    ghost predicate Valid()
      reads this
    {
      && inboxQ.cap == INBOX_MAX_SIZE && inboxQ.waiting == inbox && Accounted(inboxQ)
      && outboxQ.cap == OUTBOX_MAX_SIZE && outboxQ.waiting == outbox && Accounted(outboxQ)
    }

    constructor (now: real)
      ensures Valid()
      ensures inboxQ == Empty(INBOX_MAX_SIZE) && outboxQ == Empty(OUTBOX_MAX_SIZE)
      ensures !speaker && turns == 0 && toolCalls == 0 && lastActive == now
    {
      inbox, outbox, speaker, lastActive := [], [], false, now;
      turns, toolCalls := 0, 0;
      inboxQ, outboxQ := Empty(INBOX_MAX_SIZE), Empty(OUTBOX_MAX_SIZE);
    }

    method Touch(now: real)
      modifies this`lastActive
      ensures lastActive == now
    {
      lastActive := now;
    }

    /** inbox.put_nowait; the result is false where the source catches QueueFull. */
    method PutInbox(frame: InputFrame) returns (accepted: bool)
      requires Valid()
      modifies this`inbox, this`inboxQ
      ensures Valid()
      ensures inboxQ == Put(old(inboxQ), frame)
      ensures accepted <==> |old(inbox)| != 512
      ensures inbox == old(inbox) + if accepted then [frame] else []
    {
      accepted := |inbox| < INBOX_MAX_SIZE;
      PutKeepsAccounted(inboxQ, frame);
      inboxQ := Put(inboxQ, frame);
      if accepted {
        inbox := inbox + [frame];
      }
    }

    method TakeInbox() returns (frame: InputFrame)
      requires Valid() && inbox != []
      modifies this`inbox, this`inboxQ
      ensures Valid()
      ensures inboxQ == Take(old(inboxQ))
      ensures [frame] + inbox == old(inbox)
    {
      TakeKeepsAccounted(inboxQ);
      inboxQ := Take(inboxQ);
      frame := inbox[0];
      inbox := inbox[1..];
    }

    /** send_outbox: drops the frame, any frame, when 256 are waiting. */
    method SendOutbox(frame: OutFrame)
      requires Valid()
      modifies this`outbox, this`outboxQ
      ensures Valid()
      ensures outboxQ == Put(old(outboxQ), frame)
      ensures outbox == if |old(outbox)| == 256 then old(outbox) else old(outbox) + [frame]
    {
      PutKeepsAccounted(outboxQ, frame);
      outboxQ := Put(outboxQ, frame);
      if |outbox| < OUTBOX_MAX_SIZE {
        outbox := outbox + [frame];
      }
    }

    method TakeOutbox() returns (frame: OutFrame)
      requires Valid() && outbox != []
      modifies this`outbox, this`outboxQ
      ensures Valid()
      ensures outboxQ == Take(old(outboxQ))
      ensures [frame] + outbox == old(outbox)
    {
      TakeKeepsAccounted(outboxQ);
      outboxQ := Take(outboxQ);
      frame := outbox[0];
      outbox := outbox[1..];
    }

    method SetSpeakerMode(enabled: bool)
      modifies this`speaker
      ensures speaker == enabled
    {
      speaker := enabled;
    }
  }
}
