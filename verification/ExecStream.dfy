/**
 The streamed exec: two pumps feed a bounded funnel, a forwarder numbers the chunks and keeps the byte
 budget, and the main line races the child against a deadline, a group kill and a drain grace.
 */
module ExecStream {
  import opened Results
  import opened ExecTree

  const STREAM_BUDGET := 8 * 1024 * 1024
  const FUNNEL := 8
  const OUTBOUND_CAP := 32

  datatype Chunk = Chunk(channel: Channel, data: seq<Byte>)

  datatype Error = SpawnFailed | WaitFailed

  datatype Msg =
    | Output(seqNo: nat, channel: Channel, data: seq<Byte>)
    | ExitMsg(code: Option<int>, signal: Option<int>, timedOut: bool, truncated: bool, error: Option<Error>)

  // ---- the forwarder ----

  /** Where the forwarder is: at one of its two awaits, between them, or ended. */
  datatype Phase = AwaitRecv | Running(chunk: Chunk) | AwaitSend(chunk: Chunk) | Done | Cancelled

  /** Its variables; `taken` records every chunk it received. `cancel` is set by `abort`. */
  datatype Relay = Relay(
    phase: Phase, cancel: bool, taken: seq<Chunk>, seqNo: nat, sent: nat, truncated: bool, gone: bool)

  const IDLE := Relay(Done, false, [], 0, 0, false, false)

  function Received(r: Relay, chunk: Chunk): Relay {
    r.(phase := Running(chunk), taken := r.taken + [chunk])
  }

  /** From one await to the next: drop the chunk, trip the budget, or offer it to the writer. */
  function Handled(r: Relay): Relay
    requires r.phase.Running?
  {
    var chunk := r.phase.chunk;
    if r.truncated || r.gone then r.(phase := AwaitRecv)
    else if r.sent + |chunk.data| > STREAM_BUDGET then r.(phase := AwaitRecv, truncated := true)
    else r.(phase := AwaitSend(chunk), sent := r.sent + |chunk.data|)
  }

  function Accepted(r: Relay): Relay { r.(phase := AwaitRecv, seqNo := r.seqNo + 1) }

  function Refused(r: Relay): Relay { r.(phase := AwaitRecv, gone := true) }

  function Total(chunks: seq<Chunk>): nat {
    if chunks == [] then 0 else Total(chunks[..|chunks| - 1]) + |chunks[|chunks| - 1].data|
  }

  /**
   Everything received so far was either sent or is in flight, unless the stream was cut; the budget
   is tripped only by more than it in all.
   */
  ghost predicate RelayInv(r: Relay) {
    && r.seqNo <= |r.taken| && Total(r.taken[..r.seqNo]) <= r.sent <= STREAM_BUDGET
    && (r.truncated ==> Total(r.taken) > STREAM_BUDGET)
    && match r.phase
       case Running(chunk) => r.taken != [] && chunk == r.taken[|r.taken| - 1] && r.seqNo < |r.taken|
                              && (Uncut(r) ==> r.seqNo == |r.taken| - 1 && r.sent == Total(r.taken[..r.seqNo]))
       case AwaitSend(chunk) => r.taken != [] && chunk == r.taken[|r.taken| - 1] && Uncut(r)
                                && r.seqNo == |r.taken| - 1 && r.sent == Total(r.taken)
       case Cancelled => true
       case _ => Uncut(r) ==> r.seqNo == |r.taken| && r.sent == Total(r.taken)
  }

  predicate Uncut(r: Relay) { !r.truncated && !r.gone }

  lemma TotalAppend(chunks: seq<Chunk>, chunk: Chunk)
    ensures Total(chunks + [chunk]) == Total(chunks) + |chunk.data|
  {
    assert (chunks + [chunk])[..|chunks|] == chunks;
  }

  lemma RelayReceived(r: Relay, chunk: Chunk)
    requires RelayInv(r) && r.phase.AwaitRecv?
    ensures RelayInv(Received(r, chunk))
  {
    TotalAppend(r.taken, chunk);
    hide Total;
    assert (r.taken + [chunk])[..r.seqNo] == r.taken[..r.seqNo];
    assert r.taken[..|r.taken|] == r.taken;
  }

  lemma RelayHandled(r: Relay)
    requires RelayInv(r) && r.phase.Running?
    ensures RelayInv(Handled(r))
  {
    var front, last := r.taken[..|r.taken| - 1], r.taken[|r.taken| - 1];
    TotalAppend(front, last);
    assert front + [last] == r.taken;
    hide Total;
  }

  lemma RelaySent(r: Relay)
    requires RelayInv(r) && r.phase.AwaitSend?
    ensures RelayInv(Accepted(r)) && RelayInv(Refused(r))
  {
    hide Total;
    assert r.taken[..|r.taken|] == r.taken;
  }

  /** The forwarder task's variables, updated in place between its awaits. */
  class Forwarder {
    var phase: Phase
    var seqNo: nat
    var sent: nat
    var truncated: bool
    var gone: bool
    ghost var taken: seq<Chunk>

    ghost function View(cancel: bool): Relay
      reads this
    {
      Relay(phase, cancel, taken, seqNo, sent, truncated, gone)
    }

    constructor ()
      ensures View(false) == IDLE.(phase := AwaitRecv) && RelayInv(View(false))
    {
      phase, seqNo, sent, truncated, gone, taken := AwaitRecv, 0, 0, false, false, [];
    }

    /** One received chunk, up to the next await: the message to send, if there is one. */
    method OnChunk(chunk: Chunk, ghost cancel: bool) returns (msg: Option<Msg>)
      requires phase.AwaitRecv? && RelayInv(View(cancel))
      modifies this
      ensures View(cancel) == Handled(Received(old(View(cancel)), chunk)) && RelayInv(View(cancel))
      ensures msg == if phase.AwaitSend? then Some(Output(seqNo, chunk.channel, chunk.data)) else None
    {
      RelayReceived(View(cancel), chunk);
      RelayHandled(Received(View(cancel), chunk));
      hide RelayInv;
      taken := taken + [chunk];
      if truncated || gone {
        return None;
      }
      if sent + |chunk.data| > STREAM_BUDGET {
        truncated := true;
        return None;
      }
      sent := sent + |chunk.data|;
      phase := AwaitSend(chunk);
      return Some(Output(seqNo, chunk.channel, chunk.data));
    }

    /** The send returned. */
    method OnSent(ok: bool, ghost cancel: bool)
      requires phase.AwaitSend? && RelayInv(View(cancel))
      modifies this
      ensures View(cancel) == (if ok then Accepted(old(View(cancel))) else Refused(old(View(cancel))))
      ensures RelayInv(View(cancel))
    {
      RelaySent(View(cancel));
      hide RelayInv;
      if ok {
        seqNo := seqNo + 1;
      } else {
        gone := true;
      }
      phase := AwaitRecv;
    }
  }

  // ---- the whole system ----

  datatype Pump = Reading | Sending(data: seq<Byte>) | Ended

  /** A pipe's reading end: how much has been read, and where its pump is. */
  datatype Reader = Reader(pos: nat, pump: Pump)

  datatype Main =
    | Spawning
    | Awaiting(wait: Wait)
    | Draining(waited: Waited)
    | Stopping(waited: Waited, gone: bool, truncated: bool)
    | StopWait(waited: Waited, gone: bool, truncated: bool)
    | Exiting(msg: Msg)
    | Finished

  /** `wire` records what this exec put on the writer channel, `queued` how full the channel is. */
  datatype State = State(
    main: Main, tree: Tree, out: Reader, err: Reader, funnel: seq<Chunk>, relay: Relay,
    wire: seq<Msg>, queued: nat, open: bool)

  function Start(queued: nat, open: bool): State {
    State(Spawning, UNSPAWNED, Reader(0, Ended), Reader(0, Ended), [], IDLE, [], queued, open)
  }

  datatype Step =
    | Env(act: Act)
    | OthersPush
    | WriterTakes
    | WriterCloses
    | PumpRead(channel: Channel, n: nat)
    | PumpEof(channel: Channel)
    | PumpSend(channel: Channel)
    | PumpLost(channel: Channel)      // the forwarder is gone
    | Recv
    | Handle
    | Send
    | SendFails
    | Close                           // both pumps ended and the funnel is empty
    | Cancel
    | Spawn
    | SpawnFails
    | Await(step: WaitStep)
    | Drained
    | Grace
    | StopKill
    | Stopped
    | ExitSent
    | ExitLost

  function End(s: State, c: Channel): Reader { if c.Stdout? then s.out else s.err }

  function SetEnd(s: State, c: Channel, r: Reader): State { if c.Stdout? then s.(out := r) else s.(err := r) }

  /** The pump has read the pipe to its end. */
  ghost predicate Eof(t: Tree, c: Channel, r: Reader) {
    r.pos == |Written(t, c)| && Released(t, c)
  }

  ghost predicate Enabled(s: State, step: Step) {
    match step
    case Env(a) => CanAct(s.tree, a)
    case OthersPush => s.open && s.queued < OUTBOUND_CAP
    case WriterTakes => s.open && s.queued > 0
    case WriterCloses => s.open
    case PumpRead(c, n) =>
      End(s, c).pump.Reading? && 1 <= n <= STREAM_CHUNK && End(s, c).pos + n <= |Written(s.tree, c)|
    case PumpEof(c) => End(s, c).pump.Reading? && Eof(s.tree, c, End(s, c))
    case PumpSend(c) => End(s, c).pump.Sending? && |s.funnel| < FUNNEL && !s.relay.phase.Cancelled?
    case PumpLost(c) => End(s, c).pump.Sending? && s.relay.phase.Cancelled?
    case Recv => s.relay.phase.AwaitRecv? && !s.relay.cancel && s.funnel != []
    case Handle => s.relay.phase.Running?
    case Send => s.relay.phase.AwaitSend? && !s.relay.cancel && s.open && s.queued < OUTBOUND_CAP
    case SendFails => s.relay.phase.AwaitSend? && !s.relay.cancel && !s.open
    case Close => s.relay.phase.AwaitRecv? && !s.relay.cancel && s.funnel == [] && s.out.pump.Ended? && s.err.pump.Ended?
    case Cancel => (s.relay.phase.AwaitRecv? || s.relay.phase.AwaitSend?) && s.relay.cancel
    case Spawn => s.main.Spawning?
    case SpawnFails => s.main.Spawning?
    case Await(w) => s.main.Awaiting? && CanWait(s.tree, s.main.wait, w)
    case Drained => s.main.Draining? && s.relay.phase.Done?
    case Grace => s.main.Draining?
    case StopKill => s.main.Stopping?
    case Stopped => s.main.StopWait? && s.tree.status.Some?
    case ExitSent => s.main.Exiting? && s.open && s.queued < OUTBOUND_CAP
    case ExitLost => s.main.Exiting? && !s.open
  }

  ghost function Next(s: State, step: Step): State
    requires Enabled(s, step)
  {
    match step
    case Env(a) => s.(tree := Acted(s.tree, a))
    case OthersPush => s.(queued := s.queued + 1)
    case WriterTakes => s.(queued := s.queued - 1)
    case WriterCloses => s.(open := false)
    case PumpRead(c, n) =>
      var pos := End(s, c).pos;
      SetEnd(s, c, Reader(pos + n, Sending(Written(s.tree, c)[pos..pos + n])))
    case PumpEof(c) => SetEnd(s, c, End(s, c).(pump := Ended))
    case PumpSend(c) =>
      SetEnd(s, c, End(s, c).(pump := Reading)).(funnel := s.funnel + [Chunk(c, End(s, c).pump.data)])
    case PumpLost(c) => SetEnd(s, c, End(s, c).(pump := Ended))
    case Recv => s.(funnel := s.funnel[1..], relay := Received(s.relay, s.funnel[0]))
    case Handle => s.(relay := Handled(s.relay))
    case Send =>
      var chunk := s.relay.phase.chunk;
      s.(relay := Accepted(s.relay), wire := s.wire + [Output(s.relay.seqNo, chunk.channel, chunk.data)],
         queued := s.queued + 1)
    case SendFails => s.(relay := Refused(s.relay))
    case Close => s.(relay := s.relay.(phase := Done))
    case Cancel => s.(relay := s.relay.(phase := Cancelled))
    case Spawn =>
      s.(main := Awaiting(Waiting), tree := SPAWNED, out := Reader(0, Reading), err := Reader(0, Reading),
         relay := IDLE.(phase := AwaitRecv))
    case SpawnFails => s.(main := Exiting(ErrorExit(SpawnFailed)))
    case Await(w) => s.(main := AfterWait(WaitNext(s.tree, s.main.wait, w)), tree := WaitTree(s.tree, w))
    case Drained =>
      s.(main := if s.relay.gone then Stopping(s.main.waited, true, s.relay.truncated)
                 else Exiting(ExitOf(s.main.waited, s.relay.truncated)))
    case Grace => s.(main := Stopping(s.main.waited, false, true), relay := s.relay.(cancel := true))
    case StopKill => s.(main := StopWait(s.main.waited, s.main.gone, s.main.truncated), tree := KillTree(s.tree))
    case Stopped => s.(main := if s.main.gone then Finished else Exiting(ExitOf(s.main.waited, s.main.truncated)))
    case ExitSent => s.(main := Finished, wire := s.wire + [s.main.msg], queued := s.queued + 1)
    case ExitLost => s.(main := Finished)
  }

  function AfterWait(w: Wait): Main {
    if w.Over? then Draining(w.result) else Awaiting(w)
  }

  /** An error exit always says it is not truncated. */
  function ErrorExit(e: Error): Msg { ExitMsg(None, None, false, false, Some(e)) }

  function ExitOf(w: Waited, truncated: bool): Msg {
    match w
    case Exited(status, timedOut) => ExitMsg(ExitCode(w), status.signal, timedOut, truncated, None)
    case WaitError => ErrorExit(WaitFailed)
  }

  ghost predicate Runs(s: State, steps: seq<Step>, s': State)
    decreases |steps|
  {
    if steps == [] then s' == s else Enabled(s, steps[0]) && Runs(Next(s, steps[0]), steps[1..], s')
  }
}
