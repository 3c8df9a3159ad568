/**
  The Zeiss stage driver: the producer that queues motion commands, the
  lifecycle operations, and one tick of the periodic dequeue interrupt,
  whose bus traffic is abstracted to the reply frame it reads and the query
  frame it sends.
 */
module ZeissStage {
  import opened Ints
  import opened HexParse
  import opened CmdRing

  datatype Option<T> = None | Some(value: T)

  /** How commands are numbered: by the caller's line number, or by a counter since reset. */
  datatype IdMode = LineNumbers | CommandCounter

  /** A CAN frame: identifier and payload bytes. */
  datatype Frame = Frame(id: bv32, data: seq<byte>)

  /** XYID, the bus address of the X/Y stage controller. */
  const XY_ID: bv32 := 0x72

  /** The readiness query for the X axis, "Xt", addressed to XYID. */
  const QueryFrame: Frame := Frame(XY_ID, [0x58, 0x74])

  /** Replies meant for the driver carry 13 in the low byte of their identifier. */
  predicate ForDriver(id: bv32)
    ensures ForDriver(id) <==> id % 0x100 == 13
  {
    id & 0xFF == 13
  }

  /** What one tick of the dequeue interrupt did. */
  datatype Outcome =
    | Halted              // the interrupt is disabled: nothing happens
    | Idle                // no command is queued: no query, no reply read
    | Ignored             // the reply was not addressed to the driver
    | Busy(status: int32) // the axis answered with a non-zero status
    | Dispatched(cmd: Cmd) // the axis is ready: the head command was sent and retired

  /**
    The decision a tick takes, given whether the interrupt is enabled, the
    head of the queue (if any) and the reply frame to the readiness query.
   */
  function Step(awake: bool, head: Option<Cmd>, reply: Frame): (o: Outcome)
    ensures o.Dispatched? <==>
      && awake && head.Some? && ForDriver(reply.id)
      && forall i :: 0 <= i < |Digits(reply.data)| ==> Digits(reply.data)[i] == ZERO_DIGIT
    ensures o.Dispatched? ==> o.cmd == head.value
    ensures o.Busy? <==> awake && head.Some? && ForDriver(reply.id) && StrToLong(reply.data) != 0
    ensures o.Busy? ==> o.status == StrToLong(reply.data)
    ensures o.Ignored? <==> awake && head.Some? && !ForDriver(reply.id)
    ensures o.Halted? <==> !awake
    ensures o.Idle? <==> awake && head.None?
  {
    ReadyIffZeroDigits(reply.data);
    if !awake then Halted
    else if head.None? then Idle
    else if !ForDriver(reply.id) then Ignored
    else if !AxisReady(reply.data) then Busy(StrToLong(reply.data))
    else Dispatched(head.value)
  }

  /**
    A reply addressed to the driver in which strtol finds no digit at all,
    an empty payload or one such as "GG", reads as 0: the head is sent.
   */
  lemma DigitlessReplyDispatches(head: Cmd, reply: Frame)
    requires ForDriver(reply.id) && Digits(reply.data) == []
    ensures Step(true, Some(head), reply) == Dispatched(head)
  {
  }

  /**
    Step uses the intended zero test: a reply worth a non-zero multiple of
    65536, which the driver's 16-bit `resp` would take as ready, leaves the
    head queued.
   */
  lemma NarrowedReplyKeepsHead(head: Cmd, n: nat)
    requires 0 < n <= INT32_MAX && n % 0x1_0000 == 0
    ensures ReadyAsWritten(ToHex(n))
    ensures Step(true, Some(head), Frame(13, ToHex(n))) == Busy(n)
  {
    BusyReplyReadAsReady(n);
  }

  /** The frames a tick with outcome `o` puts on the bus. */
  function QueriesSent(o: Outcome): seq<Frame> {
    if o.Halted? || o.Idle? then [] else [QueryFrame]
  }

  /** The driver's global state, with the buffer it allocates once. */
  class Stage {
    const mode: IdMode
    const buffer: array<Cmd>
    var front: int
    var back: int
    var cmdsSinceReset: int16
    var lastRunCmd: int16
    var awake: bool

    ghost predicate Valid()
      reads this
    {
      buffer.Length == N && InRange(front) && InRange(back)
    }

    /** The queued commands, oldest first. */
    ghost function Contents(): seq<Cmd>
      reads this, buffer
      requires Valid()
    {
      Resident(buffer[..], front, back)
    }

    /** The command the next tick works on, if one is queued. */
    function Head(): Option<Cmd>
      reads this, buffer
      requires Valid()
    {
      if IsEmpty(front, back) then None else Some(buffer[front])
    }

    /** The state mscope_init sets up: counters at 0, a zeroed buffer, an empty queue. */
    constructor (mode: IdMode)
      ensures Valid() && fresh(buffer)
      ensures this.mode == mode
      ensures cmdsSinceReset == 0 && lastRunCmd == 0 && !awake
      ensures front == 0 && back == 0 && Contents() == []
      ensures forall i :: 0 <= i < N ==> buffer[i] == ZeroCmd
    {
      this.mode := mode;
      cmdsSinceReset := 0;
      lastRunCmd := 0;
      buffer := new Cmd[N](_ => ZeroCmd);
      front, back := 0, 0;
      awake := false;
    }

    /**
      queue_stage_cmd: build the command from the targets and the feed rate,
      number it, and store it at the back of the queue. `lineNumber` is only
      read in line-number mode; `invertFeedRate` is never read.
     */
    method Enqueue(target: seq<int>, feedRate: int, invertFeedRate: bool, lineNumber: int32)
      requires Valid() && |target| >= 3
      requires !IsFull(front, back)
      modifies this`back, this`cmdsSinceReset, buffer
      ensures Valid()
      ensures var c := Cmd(if mode == LineNumbers then Wrap16(lineNumber) else old(cmdsSinceReset),
                           target[0], target[1], target[2], feedRate);
        && buffer[old(back)] == c
        && Contents() == old(Contents()) + [c]
      ensures forall i :: 0 <= i < N && i != old(back) ==> buffer[i] == old(buffer[i])
      ensures back == (old(back) + 1) % N && front == old(front)
      ensures cmdsSinceReset ==
        if mode == CommandCounter then Wrap16(old(cmdsSinceReset) + 1) else old(cmdsSinceReset)
    {
      var cmdNo: int16;
      if mode == LineNumbers {
        cmdNo := Wrap16(lineNumber);
      } else {
        cmdNo := cmdsSinceReset;
        cmdsSinceReset := Wrap16(cmdsSinceReset + 1);
      }
      var cmd := Cmd(cmdNo, target[0], target[1], target[2], feedRate);
      PushResident(buffer[..], front, back, cmd);
      buffer[back] := cmd;
      back := Next(back);
    }

    /** st_get_linenumber: the id of the command retired last. */
    method GetLineNumber() returns (n: int32)
      ensures n == lastRunCmd
    {
      n := lastRunCmd;
    }

    /** st_wake_up: enable the dequeue interrupt. */
    method WakeUp()
      modifies this`awake
      ensures awake
    {
      awake := true;
    }

    /** st_go_idle: disable the dequeue interrupt. */
    method GoIdle()
      modifies this`awake
      ensures !awake
    {
      awake := false;
    }

    /**
      st_reset: halt the interrupt, zero every slot, empty the queue and, in
      counter mode, restart numbering. The last retired id is kept.
     */
    method Reset()
      requires Valid()
      modifies this`front, this`back, this`cmdsSinceReset, this`awake, buffer
      ensures Valid() && !awake
      ensures front == 0 && back == 0 && Contents() == []
      ensures forall i :: 0 <= i < N ==> buffer[i] == ZeroCmd
      ensures cmdsSinceReset == if mode == CommandCounter then 0 else old(cmdsSinceReset)
      ensures lastRunCmd == old(lastRunCmd)
    {
      GoIdle();
      forall i | 0 <= i < buffer.Length {
        buffer[i] := ZeroCmd;
      }
      front, back := 0, 0;
      if mode == CommandCounter {
        cmdsSinceReset := 0;
      }
    }

    /**
      One run of the dequeue interrupt. With a command queued it sends the
      readiness query, reads `reply`, and when the reply is for the driver
      and reads as zero it records the head's id, clears the head slot and
      steps `front`.
     */
    method Tick(reply: Frame) returns (sent: seq<Frame>, outcome: Outcome)
      requires Valid()
      modifies this`front, this`lastRunCmd, buffer
      ensures Valid()
      ensures outcome == Step(old(awake), old(Head()), reply)
      ensures sent == QueriesSent(outcome)
      ensures outcome.Dispatched? ==>
        && outcome.cmd == old(Contents())[0]
        && Contents() == old(Contents())[1..]
        && lastRunCmd == outcome.cmd.cmdNo
        && buffer[old(front)] == ZeroCmd
        && front == (old(front) + 1) % N
      ensures !outcome.Dispatched? ==>
        front == old(front) && lastRunCmd == old(lastRunCmd) && buffer[..] == old(buffer[..])
      ensures forall i :: 0 <= i < N && i != old(front) ==> buffer[i] == old(buffer[i])
      ensures back == old(back)
    {
      sent := [];
      if !awake {
        outcome := Halted;
        return;
      }
      if IsEmpty(front, back) {
        outcome := Idle;
        return;
      }
      sent := [QueryFrame];
      if !ForDriver(reply.id) {
        outcome := Ignored;
        return;
      }
      var status := StrToLong(reply.data);
      if status != 0 {
        outcome := Busy(status);
        return;
      }
      var cmd := buffer[front];
      PopResident(buffer[..], front, back, ZeroCmd);
      lastRunCmd := cmd.cmdNo;
      buffer[front] := ZeroCmd;
      front := Next(front);
      outcome := Dispatched(cmd);
    }
  }

  /**
    A command queued with line number 1 and targets (10, 20, -1) stays queued
    while the stage answers "FF" and is sent on the first tick whose reply is
    "0"; afterwards the queue is empty and the status query reports line 1.
   */
  method DispatchScenario() {
    var stage := new Stage(LineNumbers);
    stage.WakeUp();
    stage.Enqueue([10, 20, -1], 0, false, 1);
    ParseToHex(0xFF);
    var busySent, busy := stage.Tick(Frame(13, ToHex(0xFF)));  // "FF"
    assert busySent == [QueryFrame] && busy == Busy(0xFF);
    ParseToHex(0);
    var sent, outcome := stage.Tick(Frame(13, ToHex(0)));  // "0"
    assert sent == [QueryFrame] && outcome == Dispatched(Cmd(1, 10, 20, -1, 0));
    var line := stage.GetLineNumber();
    assert line == 1 && stage.Contents() == [];
  }
}
