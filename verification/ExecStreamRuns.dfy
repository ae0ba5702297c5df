/** What every run of a streamed exec keeps, what its exit message means, and why it ends. */
module ExecStreamRuns {
  import opened Results
  import opened Sequences
  import opened ExecTree
  import opened ExecStream

  // ---- the pipeline of one channel ----

  /** The bytes of one channel, in order. */
  function Of(chunks: seq<Chunk>, c: Channel): seq<Byte> {
    if chunks == [] then []
    else
      var last := chunks[|chunks| - 1];
      Of(chunks[..|chunks| - 1], c) + if last.channel == c then last.data else []
  }

  lemma OfAppend(chunks: seq<Chunk>, chunk: Chunk, c: Channel)
    ensures Of(chunks + [chunk], c) == Of(chunks, c) + if chunk.channel == c then chunk.data else []
  {
    assert (chunks + [chunk])[..|chunks|] == chunks;
  }

  lemma {:induction false} OfPrefix(chunks: seq<Chunk>, n: nat, c: Channel)
    requires n <= |chunks|
    ensures Of(chunks[..n], c) <= Of(chunks, c)
    decreases |chunks|
  {
    if n < |chunks| {
      OfPrefix(chunks[..|chunks| - 1], n, c);
      assert chunks[..|chunks| - 1][..n] == chunks[..n];
    } else {
      assert chunks[..n] == chunks;
    }
  }

  function Hand(r: Reader): seq<Byte> {
    if r.pump.Sending? then r.pump.data else []
  }

  /**
   All that was read of a pipe is with the forwarder, in the funnel or in the pump's hand, in order; a
   pump ends at EOF only, unless the forwarder was cancelled under it.
   */
  ghost predicate PipeInv(t: Tree, c: Channel, r: Reader, cancelled: bool, taken: seq<Chunk>, funnel: seq<Chunk>) {
    && r.pos <= |Written(t, c)|
    && (r.pump.Ended? ==> Eof(t, c, r) || cancelled)
    && if cancelled then Of(taken, c) <= Written(t, c) else Of(taken + funnel, c) + Hand(r) == Written(t, c)[..r.pos]
  }

  lemma PipeRead(t: Tree, c: Channel, r: Reader, n: nat, cancelled: bool, taken: seq<Chunk>, funnel: seq<Chunk>)
    requires PipeInv(t, c, r, cancelled, taken, funnel) && r.pump.Reading? && r.pos + n <= |Written(t, c)|
    ensures PipeInv(t, c, Reader(r.pos + n, Sending(Written(t, c)[r.pos..r.pos + n])), cancelled, taken, funnel)
  {
    hide Of;
    var all := Written(t, c);
    assert all[..r.pos] + all[r.pos..r.pos + n] == all[..r.pos + n];
    Empty(Of(taken + funnel, c));
  }

  lemma PipeSend(t: Tree, c: Channel, r: Reader, taken: seq<Chunk>, funnel: seq<Chunk>)
    requires PipeInv(t, c, r, false, taken, funnel) && r.pump.Sending?
    ensures PipeInv(t, c, r.(pump := Reading), false, taken, funnel + [Chunk(c, r.pump.data)])
  {
    PipeOther(taken, funnel, Chunk(c, r.pump.data), c);
    hide Of;
    Empty(Of(taken + funnel, c) + r.pump.data);
  }

  lemma PipeOther(taken: seq<Chunk>, funnel: seq<Chunk>, chunk: Chunk, c: Channel)
    ensures Of(taken + (funnel + [chunk]), c) == Of(taken + funnel, c) + if chunk.channel == c then chunk.data else []
  {
    Associative(taken, funnel, [chunk]);
    OfAppend(taken + funnel, chunk, c);
  }

  lemma PipeMoves(t: Tree, c: Channel, r: Reader, taken: seq<Chunk>, funnel: seq<Chunk>)
    requires PipeInv(t, c, r, false, taken, funnel) && funnel != []
    ensures PipeInv(t, c, r, false, taken + [funnel[0]], funnel[1..])
  {
    assert (taken + [funnel[0]]) + funnel[1..] == taken + funnel;
    hide Of;
  }

  lemma TakenIsPrefix(t: Tree, c: Channel, r: Reader, cancelled: bool, taken: seq<Chunk>, funnel: seq<Chunk>)
    requires PipeInv(t, c, r, cancelled, taken, funnel)
    ensures Of(taken, c) <= Written(t, c)
    ensures PipeInv(t, c, r, true, taken, funnel)
  {
    if !cancelled {
      OfPrefix(taken + funnel, |taken|, c);
      hide Of, Released, Written;
      TakeFront(taken, funnel);
      PrefixOfPart(Of(taken, c), Of(taken + funnel, c), Hand(r), Written(t, c), r.pos);
    }
  }

  lemma TakeFront<T>(a: seq<T>, b: seq<T>)
    ensures (a + b)[..|a|] == a
  {
  }

  lemma PrefixOfPart<T>(a: seq<T>, b: seq<T>, rest: seq<T>, whole: seq<T>, n: nat)
    requires a <= b && n <= |whole| && b + rest == whole[..n]
    ensures a <= whole
  {
    assert b == whole[..n][..|b|];
  }

  lemma PipeGrows(t: Tree, t': Tree, c: Channel, r: Reader, cancelled: bool, taken: seq<Chunk>, funnel: seq<Chunk>)
    requires PipeInv(t, c, r, cancelled, taken, funnel) && Later(t, t')
    ensures PipeInv(t', c, r, cancelled, taken, funnel)
  {
    hide Of;
    assert Written(t', c)[..r.pos] == Written(t, c)[..r.pos];
  }

  // ---- the exit ----

  /** Both pipes are at their end, or the group was killed (and then holds neither). */
  ghost predicate Clean(t: Tree, out: Reader, err: Reader) {
    (Eof(t, Stdout, out) && Eof(t, Stderr, err)) || t.killed
  }

  /** What an exit message says of the run: its status, its timeout, and that nothing was cut. */
  ghost predicate ExitInv(t: Tree, relay: Relay, msg: Msg) {
    && msg.ExitMsg? && (msg.error.Some? ==> msg == ErrorExit(msg.error.value))
    && (msg.timedOut ==> t.killed && msg.code == None)
    && (msg.error == None ==>
          && t.status.Some? && msg.signal == t.status.value.signal
          && (!msg.timedOut ==> msg.code == t.status.value.code))
    && (!msg.truncated && msg.error != Some(WaitFailed) ==> relay.phase.Done? && Uncut(relay))
    && (msg.error == None && !relay.cancel ==> (msg.truncated <==> relay.truncated))
  }

  /** The forwarder will send nothing more. */
  predicate Quiet(relay: Relay) { relay.phase.Done? || relay.cancel }

  ghost predicate MainInv(main: Main, t: Tree, out: Reader, err: Reader, relay: Relay, open: bool, exit: Option<Msg>) {
    match main
    case Spawning => t == UNSPAWNED && out == err == Reader(0, Ended) && relay == IDLE
    case Awaiting(w) => !w.Over? && WaitInv(t, w) && !relay.cancel && !relay.phase.Cancelled?
    case Draining(w) => WaitInv(t, Over(w)) && !relay.cancel && !relay.phase.Cancelled?
    case Stopping(w, gone, truncated) =>
      WaitInv(t, Over(w)) && Quiet(relay) && (gone ==> !open) && (!gone ==> truncated && relay.cancel)
    case StopWait(w, gone, truncated) =>
      WaitInv(t, Over(w)) && Quiet(relay) && (gone ==> !open) && (!gone ==> truncated && relay.cancel) && t.killed
    case Exiting(msg) => Quiet(relay) && Clean(t, out, err) && ExitInv(t, relay, msg)
    case Finished =>
      && Quiet(relay) && Clean(t, out, err)
      && if exit.None? then !open else ExitInv(t, relay, exit.value)
  }

  /** The outputs on the wire are the first chunks received, numbered from 0. */
  ghost predicate WireInv(wire: seq<Msg>, taken: seq<Chunk>, seqNo: nat) {
    && seqNo <= |wire| && seqNo <= |taken|
    && forall i :: 0 <= i < seqNo ==> wire[i] == Output(i, taken[i].channel, taken[i].data)
  }

  /** The exit message, if it was sent: it follows all the outputs. */
  function ExitOn(wire: seq<Msg>, seqNo: nat): Option<Msg> {
    if |wire| == seqNo + 1 then Some(wire[seqNo]) else None
  }

  ghost predicate Inv(s: State) {
    && TreeInv(s.tree) && RelayInv(s.relay)
    && PipeInv(s.tree, Stdout, s.out, s.relay.phase.Cancelled?, s.relay.taken, s.funnel)
    && PipeInv(s.tree, Stderr, s.err, s.relay.phase.Cancelled?, s.relay.taken, s.funnel)
    && (s.relay.phase.Done? ==> s.funnel == [] && s.out.pump.Ended? && s.err.pump.Ended?)
    && (s.relay.phase.Cancelled? ==> s.relay.cancel)
    && (s.relay.gone ==> !s.open)
    && WireInv(s.wire, s.relay.taken, s.relay.seqNo)
    && (|s.wire| == s.relay.seqNo || (s.main.Finished? && |s.wire| == s.relay.seqNo + 1))
    && MainInv(s.main, s.tree, s.out, s.err, s.relay, s.open, ExitOn(s.wire, s.relay.seqNo))
  }

  lemma StartInv(queued: nat, open: bool)
    ensures Inv(Start(queued, open))
  {
  }

  // ---- the steps ----

  lemma MainGrows(main: Main, t: Tree, t': Tree, out: Reader, err: Reader, relay: Relay, open: bool, exit: Option<Msg>)
    requires MainInv(main, t, out, err, relay, open, exit) && Later(t, t') && !main.Spawning?
    ensures MainInv(main, t', out, err, relay, open, exit)
  {
    forall w | WaitInv(t, w) ensures WaitInv(t', w) { WaitStays(t, w, t'); }
    assert Clean(t, out, err) ==> Clean(t', out, err);
    assert forall msg :: ExitInv(t, relay, msg) ==> ExitInv(t', relay, msg);
    assert t.killed ==> t'.killed;
    hide Clean, ExitInv, WaitInv, Later;
  }

  lemma TreeGrows(s: State, t': Tree)
    requires Inv(s) && Later(s.tree, t') && TreeInv(t') && !s.main.Spawning?
    ensures Inv(s.(tree := t'))
  {
    hide PipeInv, MainInv, WireInv, RelayInv, TreeInv, Later;
    PipeGrows(s.tree, t', Stdout, s.out, s.relay.phase.Cancelled?, s.relay.taken, s.funnel);
    PipeGrows(s.tree, t', Stderr, s.err, s.relay.phase.Cancelled?, s.relay.taken, s.funnel);
    MainGrows(s.main, s.tree, t', s.out, s.err, s.relay, s.open, ExitOn(s.wire, s.relay.seqNo));
  }

  lemma EnvKeeps(s: State, a: Act)
    requires Inv(s) && Enabled(s, Env(a))
    ensures Inv(Next(s, Env(a)))
  {
    assert s.tree != UNSPAWNED;
    ActedKeeps(s.tree, a);
    assert !s.main.Spawning?;
    hide Inv, Acted, CanAct, Later, TreeInv;
    TreeGrows(s, Acted(s.tree, a));
  }

  lemma WriterKeeps(s: State, step: Step)
    requires Inv(s) && Enabled(s, step) && (step.OthersPush? || step.WriterTakes? || step.WriterCloses?)
    ensures Inv(Next(s, step))
  {
    hide PipeInv, WireInv, RelayInv, TreeInv, Clean, ExitInv, WaitInv;
  }

  /** Only the pump and its distance into the pipe may change, and an EOF stays one. */
  lemma PumpKeepsMain(main: Main, t: Tree, c: Channel, s: State, r: Reader)
    requires MainInv(main, t, s.out, s.err, s.relay, s.open, ExitOn(s.wire, s.relay.seqNo))
    requires !End(s, c).pump.Ended? && (Eof(t, c, End(s, c)) ==> Eof(t, c, r))
    ensures var s' := SetEnd(s, c, r); MainInv(main, t, s'.out, s'.err, s.relay, s.open, ExitOn(s.wire, s.relay.seqNo))
  {
    hide ExitInv, WaitInv, Eof;
  }

  lemma EndChanges(s: State, c: Channel, r: Reader)
    requires Inv(s) && !End(s, c).pump.Ended? && (Eof(s.tree, c, End(s, c)) ==> Eof(s.tree, c, r))
    requires PipeInv(s.tree, c, r, s.relay.phase.Cancelled?, s.relay.taken, s.funnel)
    ensures Inv(SetEnd(s, c, r))
  {
    hide PipeInv, MainInv, WireInv, RelayInv, TreeInv, Eof;
    PumpKeepsMain(s.main, s.tree, c, s, r);
  }

  lemma PumpReadKeeps(s: State, c: Channel, n: nat)
    requires Inv(s) && Enabled(s, PumpRead(c, n))
    ensures Inv(Next(s, PumpRead(c, n)))
  {
    var r := End(s, c);
    var r' := Reader(r.pos + n, Sending(Written(s.tree, c)[r.pos..r.pos + n]));
    assert !Eof(s.tree, c, r) && Next(s, PumpRead(c, n)) == SetEnd(s, c, r');
    hide PipeInv, Eof, Written, Next, Enabled, SetEnd, MainInv;
    PipeRead(s.tree, c, r, n, s.relay.phase.Cancelled?, s.relay.taken, s.funnel);
    hide Inv;
    EndChanges(s, c, r');
  }

  lemma PipeEnds(t: Tree, c: Channel, r: Reader, cancelled: bool, taken: seq<Chunk>, funnel: seq<Chunk>)
    requires PipeInv(t, c, r, cancelled, taken, funnel)
    requires cancelled || (r.pump.Reading? && Eof(t, c, r))
    ensures PipeInv(t, c, r.(pump := Ended), cancelled, taken, funnel)
  {
    hide Of, Written, Released;
  }

  lemma PumpEndKeeps(s: State, step: Step)
    requires Inv(s) && Enabled(s, step) && (step.PumpEof? || step.PumpLost?)
    ensures Inv(Next(s, step))
  {
    var c := step.channel;
    var r := End(s, c).(pump := Ended);
    assert Next(s, step) == SetEnd(s, c, r) && (Eof(s.tree, c, End(s, c)) ==> Eof(s.tree, c, r));
    hide PipeInv, Eof, Next, SetEnd, MainInv;
    PipeEnds(s.tree, c, End(s, c), s.relay.phase.Cancelled?, s.relay.taken, s.funnel);
    hide Inv, Enabled;
    EndChanges(s, c, r);
  }

  lemma PumpSendKeeps(s: State, c: Channel)
    requires Inv(s) && Enabled(s, PumpSend(c))
    ensures Inv(Next(s, PumpSend(c)))
  {
    var r, chunk := End(s, c).(pump := Reading), Chunk(c, End(s, c).pump.data);
    var other := if c.Stdout? then Stderr else Stdout;
    PumpKeepsMain(s.main, s.tree, c, s, r);
    PipeSend(s.tree, c, End(s, c), s.relay.taken, s.funnel);
    PipeOther(s.relay.taken, s.funnel, chunk, other);
    Empty(Of(s.relay.taken + s.funnel, other));
    assert PipeInv(s.tree, other, End(s, other), false, s.relay.taken, s.funnel + [chunk]) by { hide Of; }
    hide PipeInv, MainInv, WireInv, RelayInv, TreeInv, Of;
  }

  lemma WireReceives(wire: seq<Msg>, taken: seq<Chunk>, seqNo: nat, chunk: Chunk)
    requires WireInv(wire, taken, seqNo)
    ensures WireInv(wire, taken + [chunk], seqNo)
  {
  }

  lemma WireSends(wire: seq<Msg>, taken: seq<Chunk>, chunk: Chunk)
    requires WireInv(wire, taken, |wire|) && |wire| < |taken| && taken[|wire|] == chunk
    ensures WireInv(wire + [Output(|wire|, chunk.channel, chunk.data)], taken, |wire| + 1)
  {
  }

  /** While the forwarder is free to run, the main line is still waiting or draining. */
  lemma RelayKeepsMain(main: Main, t: Tree, out: Reader, err: Reader, relay: Relay, relay': Relay, open: bool, exit: Option<Msg>)
    requires MainInv(main, t, out, err, relay, open, exit)
    requires !relay.phase.Done? && relay'.cancel == relay.cancel && (relay'.phase.Cancelled? ==> relay.cancel)
    ensures MainInv(main, t, out, err, relay', open, exit) && (main.Finished? ==> relay.cancel)
  {
    hide Clean, WaitInv;
  }

  lemma RecvKeeps(s: State)
    requires Inv(s) && Enabled(s, Recv)
    ensures Inv(Next(s, Recv))
  {
    var relay := Received(s.relay, s.funnel[0]);
    hide PipeInv, MainInv, WireInv, RelayInv, TreeInv;
    PipeMoves(s.tree, Stdout, s.out, s.relay.taken, s.funnel);
    PipeMoves(s.tree, Stderr, s.err, s.relay.taken, s.funnel);
    RelayReceived(s.relay, s.funnel[0]);
    WireReceives(s.wire, s.relay.taken, s.relay.seqNo, s.funnel[0]);
    RelayKeepsMain(s.main, s.tree, s.out, s.err, s.relay, relay, s.open, ExitOn(s.wire, s.relay.seqNo));
  }

  lemma HandleKeeps(s: State)
    requires Inv(s) && Enabled(s, Handle)
    ensures Inv(Next(s, Handle))
  {
    hide PipeInv, MainInv, WireInv, RelayInv, TreeInv;
    RelayHandled(s.relay);
    RelayKeepsMain(s.main, s.tree, s.out, s.err, s.relay, Handled(s.relay), s.open, ExitOn(s.wire, s.relay.seqNo));
  }

  lemma SendKeeps(s: State)
    requires Inv(s) && Enabled(s, Send)
    ensures Inv(Next(s, Send))
  {
    var chunk := s.relay.phase.chunk;
    RelaySent(s.relay);
    assert chunk == s.relay.taken[s.relay.seqNo];
    hide PipeInv, MainInv, RelayInv, TreeInv;
    RelayKeepsMain(s.main, s.tree, s.out, s.err, s.relay, Accepted(s.relay), s.open, ExitOn(s.wire, s.relay.seqNo));
    WireSends(s.wire, s.relay.taken, chunk);
    hide WireInv;
  }

  lemma SendFailsKeeps(s: State)
    requires Inv(s) && Enabled(s, SendFails)
    ensures Inv(Next(s, SendFails))
  {
    hide PipeInv, MainInv, WireInv, RelayInv, TreeInv;
    RelaySent(s.relay);
    RelayKeepsMain(s.main, s.tree, s.out, s.err, s.relay, Refused(s.relay), s.open, ExitOn(s.wire, s.relay.seqNo));
  }

  lemma CloseKeeps(s: State)
    requires Inv(s) && Enabled(s, Step.Close)
    ensures Inv(Next(s, Step.Close))
  {
    var relay := s.relay.(phase := Done);
    assert RelayInv(relay);
    hide PipeInv, MainInv, WireInv, RelayInv, TreeInv;
    RelayKeepsMain(s.main, s.tree, s.out, s.err, s.relay, relay, s.open, ExitOn(s.wire, s.relay.seqNo));
  }

  lemma CancelKeeps(s: State)
    requires Inv(s) && Enabled(s, Cancel)
    ensures Inv(Next(s, Cancel))
  {
    var relay := s.relay.(phase := Cancelled);
    assert RelayInv(relay);
    hide PipeInv, MainInv, WireInv, RelayInv, TreeInv;
    TakenIsPrefix(s.tree, Stdout, s.out, false, s.relay.taken, s.funnel);
    TakenIsPrefix(s.tree, Stderr, s.err, false, s.relay.taken, s.funnel);
    RelayKeepsMain(s.main, s.tree, s.out, s.err, s.relay, relay, s.open, ExitOn(s.wire, s.relay.seqNo));
  }

  lemma SpawnedInv(queued: nat, open: bool)
    ensures Inv(State(Awaiting(Waiting), SPAWNED, Reader(0, Reading), Reader(0, Reading), [],
                      IDLE.(phase := AwaitRecv), [], queued, open))
  {
  }

  lemma SpawnKeeps(s: State)
    requires Inv(s) && Enabled(s, Spawn)
    ensures Inv(Next(s, Spawn))
  {
    assert s.funnel == [] && s.wire == [];
    SpawnedInv(s.queued, s.open);
    hide Inv;
  }

  lemma AwaitKeeps(s: State, w: WaitStep)
    requires Inv(s) && Enabled(s, Await(w))
    ensures Inv(Next(s, Await(w)))
  {
    var t := WaitTree(s.tree, w);
    WaitKeeps(s.tree, s.main.wait, w);
    assert !s.main.Spawning?;
    hide PipeInv, WireInv, RelayInv, TreeInv, Later, KillTree, Clean, ExitInv;
    TreeGrows(s, t);
    hide WaitInv, WaitTree;
  }

  /** The main line moves on without touching anything else. */
  lemma MainChanges(s: State, main: Main)
    requires Inv(s) && !s.main.Finished? && !s.main.Exiting?
    requires MainInv(main, s.tree, s.out, s.err, s.relay, s.open, None)
    ensures Inv(s.(main := main))
  {
    hide PipeInv, WireInv, RelayInv, TreeInv, MainInv;
  }

  lemma DrainedKeeps(s: State)
    requires Inv(s) && Enabled(s, Drained)
    ensures Inv(Next(s, Drained))
  {
    var msg := ExitOf(s.main.waited, s.relay.truncated);
    assert Clean(s.tree, s.out, s.err);
    assert !s.relay.gone ==> ExitInv(s.tree, s.relay, msg);
    var main := if s.relay.gone then Stopping(s.main.waited, true, s.relay.truncated) else Exiting(msg);
    assert Next(s, Drained) == s.(main := main);
    hide Clean, ExitInv, ExitOf, WaitInv, PipeInv, RelayInv, WireInv, Next, Enabled;
    assert MainInv(main, s.tree, s.out, s.err, s.relay, s.open, None);
    hide Inv;
    MainChanges(s, main);
  }

  lemma Aborts(s: State)
    requires Inv(s) && s.main.Draining?
    ensures Inv(s.(main := Stopping(s.main.waited, false, true), relay := s.relay.(cancel := true)))
  {
    assert RelayInv(s.relay.(cancel := true));
    hide PipeInv, WireInv, RelayInv, TreeInv, Clean, ExitInv, WaitInv;
  }

  lemma GraceKeeps(s: State)
    requires Inv(s) && Enabled(s, Grace)
    ensures Inv(Next(s, Grace))
  {
    hide Inv;
    Aborts(s);
  }

  lemma StopKillKeeps(s: State)
    requires Inv(s) && Enabled(s, StopKill)
    ensures Inv(Next(s, StopKill))
  {
    KillKeeps(s.tree);
    hide PipeInv, WireInv, RelayInv, TreeInv, Later, KillTree, Clean, ExitInv, WaitInv, GroupGone;
    TreeGrows(s, KillTree(s.tree));
    var main := StopWait(s.main.waited, s.main.gone, s.main.truncated);
    assert Next(s, StopKill) == s.(tree := KillTree(s.tree)).(main := main);
    hide Next, Enabled;
    MainChanges(s.(tree := KillTree(s.tree)), main);
  }

  lemma SpawnFailsKeeps(s: State)
    requires Inv(s) && Enabled(s, SpawnFails)
    ensures Inv(Next(s, SpawnFails))
  {
    hide PipeInv, RelayInv, WireInv, TreeInv;
  }

  lemma StoppedKeeps(s: State)
    requires Inv(s) && Enabled(s, Stopped)
    ensures Inv(Next(s, Stopped))
  {
    var msg := ExitOf(s.main.waited, s.main.truncated);
    assert Clean(s.tree, s.out, s.err);
    assert !s.main.gone ==> ExitInv(s.tree, s.relay, msg);
    var main := if s.main.gone then Finished else Exiting(msg);
    assert Next(s, Stopped) == s.(main := main);
    hide Clean, ExitInv, ExitOf, WaitInv, PipeInv, RelayInv, WireInv, Next, Enabled;
    assert MainInv(main, s.tree, s.out, s.err, s.relay, s.open, None);
    hide Inv;
    MainChanges(s, main);
  }

  lemma ExitKeeps(s: State, step: Step)
    requires Inv(s) && Enabled(s, step) && (step.ExitSent? || step.ExitLost?)
    ensures Inv(Next(s, step))
  {
    hide PipeInv, RelayInv, TreeInv, Clean, ExitInv;
  }

  lemma InvStep(s: State, step: Step)
    requires Inv(s) && Enabled(s, step)
    ensures Inv(Next(s, step))
  {
    hide Inv;
    match step
    case Env(a) => EnvKeeps(s, a);
    case OthersPush => WriterKeeps(s, step);
    case WriterTakes => WriterKeeps(s, step);
    case WriterCloses => WriterKeeps(s, step);
    case PumpRead(c, n) => PumpReadKeeps(s, c, n);
    case PumpEof(_) => PumpEndKeeps(s, step);
    case PumpSend(c) => PumpSendKeeps(s, c);
    case PumpLost(_) => PumpEndKeeps(s, step);
    case Recv => RecvKeeps(s);
    case Handle => HandleKeeps(s);
    case Send => SendKeeps(s);
    case SendFails => SendFailsKeeps(s);
    case Close => CloseKeeps(s);
    case Cancel => CancelKeeps(s);
    case Spawn => SpawnKeeps(s);
    case Await(w) => AwaitKeeps(s, w);
    case Drained => DrainedKeeps(s);
    case Grace => GraceKeeps(s);
    case StopKill => StopKillKeeps(s);
    case SpawnFails => SpawnFailsKeeps(s);
    case Stopped => StoppedKeeps(s);
    case ExitSent => ExitKeeps(s, step);
    case ExitLost => ExitKeeps(s, step);
  }

  lemma {:induction false} InvRun(s: State, steps: seq<Step>, s': State)
    requires Inv(s) && Runs(s, steps, s')
    ensures Inv(s')
    decreases |steps|
  {
    hide Inv;
    if steps != [] {
      InvStep(s, steps[0]);
      InvRun(Next(s, steps[0]), steps[1..], s');
    }
  }

  /** Why the group was killed: the deadline, a drain that was given up, or a client that is gone. */
  ghost predicate KillInv(s: State) {
    KillOk(s.main, s.tree.killed && !s.relay.cancel && !s.relay.gone, ExitOn(s.wire, s.relay.seqNo))
  }

  ghost predicate KillOk(main: Main, killed: bool, exit: Option<Msg>) {
    killed ==>
      match main
      case Spawning => false
      case Awaiting(w) => w.Reaping?
      case Draining(w) => w.WaitError? || w.timedOut
      case Stopping(_, gone, _) => gone
      case StopWait(_, gone, _) => gone
      case Exiting(msg) => KilledFor(msg)
      case Finished => exit.Some? ==> KilledFor(exit.value)
  }

  ghost predicate KilledFor(msg: Msg) { msg.ExitMsg? && (msg.timedOut || msg.error.Some?) }

  lemma KillFacts(s: State)
    requires Inv(s)
    ensures s.main.Finished? ==> Quiet(s.relay)
    ensures |s.wire| == s.relay.seqNo || (s.main.Finished? && |s.wire| == s.relay.seqNo + 1)
    ensures s.main.Stopping? ==> s.relay.cancel || s.main.gone
  {
    hide PipeInv, RelayInv, WireInv, TreeInv, Clean, ExitInv, WaitInv;
  }

  /** A step of the main line. */
  predicate OfMain(step: Step) {
    step.Spawn? || step.SpawnFails? || step.Await? || step.Drained? || step.Grace? || step.StopKill? || step.Stopped?
    || step.ExitSent? || step.ExitLost?
  }

  lemma KillMainStep(s: State, step: Step)
    requires KillInv(s) && Enabled(s, step) && OfMain(step) && (|s.wire| == s.relay.seqNo || s.main.Finished?)
    requires s.main.Stopping? ==> s.relay.cancel || s.main.gone
    ensures KillInv(Next(s, step))
  {
    hide Released, Eof, Written;
  }

  /** Any other step leaves the main line and the kill alone, and sends no exit. */
  lemma OthersKeep(s: State, step: Step)
    requires Enabled(s, step) && !OfMain(step) && (|s.wire| == s.relay.seqNo || Quiet(s.relay))
    ensures var s' := Next(s, step);
            && s'.main == s.main && s'.tree.killed == s.tree.killed && s'.relay.cancel == s.relay.cancel
            && (s.relay.gone ==> s'.relay.gone) && (Quiet(s.relay) ==> s'.relay.gone == s.relay.gone)
            && ExitOn(s'.wire, s'.relay.seqNo) == ExitOn(s.wire, s.relay.seqNo)
  {
    hide Released, Eof, Written, CanAct;
  }

  lemma KillStep(s: State, step: Step)
    requires KillInv(s) && Enabled(s, step) && Inv(s)
    ensures KillInv(Next(s, step))
  {
    KillFacts(s);
    hide Inv, Next, Enabled, KillOk;
    if OfMain(step) {
      KillMainStep(s, step);
    } else {
      hide OfMain;
      OthersKeep(s, step);
      KillWeaker(s.main, ExitOn(s.wire, s.relay.seqNo));
    }
  }

  lemma KillWeaker(main: Main, exit: Option<Msg>)
    ensures KillOk(main, false, exit)
  {
  }

  lemma {:induction false} KillRun(s: State, steps: seq<Step>, s': State)
    requires KillInv(s) && Inv(s) && Runs(s, steps, s')
    ensures KillInv(s')
    decreases |steps|
  {
    hide KillInv, Inv;
    if steps != [] {
      KillStep(s, steps[0]);
      InvStep(s, steps[0]);
      hide Next;
      KillRun(Next(s, steps[0]), steps[1..], s');
    }
  }

  // ---- what the client sees ----

  function Payload(wire: seq<Msg>, c: Channel): seq<Byte> {
    if wire == [] then []
    else
      var last := wire[|wire| - 1];
      Payload(wire[..|wire| - 1], c) + if last.Output? && last.channel == c then last.data else []
  }

  function PayloadTotal(wire: seq<Msg>): nat {
    |Payload(wire, Stdout)| + |Payload(wire, Stderr)|
  }

  lemma {:induction false} TotalIsSum(chunks: seq<Chunk>)
    ensures Total(chunks) == |Of(chunks, Stdout)| + |Of(chunks, Stderr)|
  {
    if chunks != [] {
      TotalIsSum(chunks[..|chunks| - 1]);
    }
  }

  lemma {:induction false} PayloadIsOf(wire: seq<Msg>, taken: seq<Chunk>, n: nat, c: Channel)
    requires WireInv(wire, taken, n)
    ensures Payload(wire[..n], c) == Of(taken[..n], c)
  {
    if n > 0 {
      PayloadIsOf(wire, taken, n - 1, c);
      assert wire[..n][..n - 1] == wire[..n - 1] && taken[..n][..n - 1] == taken[..n - 1];
    }
  }

  lemma PayloadOfWire(s: State, c: Channel)
    requires Inv(s)
    ensures Payload(s.wire, c) == Of(s.relay.taken[..s.relay.seqNo], c)
  {
    var n := s.relay.seqNo;
    assert |s.wire| == n + 1 ==> s.wire[n].ExitMsg?;
    assert WireInv(s.wire, s.relay.taken, n) && (|s.wire| == n || |s.wire| == n + 1);
    hide Inv, WireInv, Of;
    PayloadIsOf(s.wire, s.relay.taken, n, c);
    if |s.wire| == n {
      assert s.wire[..n] == s.wire;
    } else {
      assert s.wire[..|s.wire| - 1] == s.wire[..n];
    }
  }

  lemma PayloadIsPrefix(s: State, c: Channel)
    requires Inv(s)
    ensures Payload(s.wire, c) <= Of(s.relay.taken, c) <= Written(s.tree, c)
  {
    PayloadOfWire(s, c);
    hide Of, Payload, MainInv, RelayInv, WireInv, TreeInv, PipeInv;
    OfPrefix(s.relay.taken, s.relay.seqNo, c);
    TakenIsPrefix(s.tree, c, End(s, c), s.relay.phase.Cancelled?, s.relay.taken, s.funnel);
  }

  lemma PayloadWithinBudget(s: State)
    requires Inv(s)
    ensures PayloadTotal(s.wire) <= STREAM_BUDGET
  {
    PayloadOfWire(s, Stdout);
    PayloadOfWire(s, Stderr);
    TotalIsSum(s.relay.taken[..s.relay.seqNo]);
    hide Of, Payload, MainInv, WireInv, PipeInv, Total;
  }

  /**
   In every reachable state: outputs are numbered 0, 1, 2, ...; their bytes stay within the budget; each
   channel's bytes are a prefix of what was written to its pipe; an exit comes last, when all is over.
   */
  lemma StreamIntegrity(queued: nat, open: bool, steps: seq<Step>, s: State)
    requires Runs(Start(queued, open), steps, s)
    ensures forall i :: 0 <= i < |s.wire| ==>
              if s.wire[i].Output? then s.wire[i].seqNo == i else i == |s.wire| - 1 && s.main.Finished?
    ensures PayloadTotal(s.wire) <= STREAM_BUDGET
    ensures forall c :: Payload(s.wire, c) <= Written(s.tree, c)
  {
    StartInv(queued, open);
    InvRun(Start(queued, open), steps, s);
    hide Inv;
    WireShape(s);
    PayloadWithinBudget(s);
    forall c ensures Payload(s.wire, c) <= Written(s.tree, c) { PayloadIsPrefix(s, c); }
  }

  lemma WireShape(s: State)
    requires Inv(s)
    ensures forall i :: 0 <= i < |s.wire| ==>
              if s.wire[i].Output? then s.wire[i].seqNo == i else i == |s.wire| - 1 && s.main.Finished?
  {
    assert |s.wire| == s.relay.seqNo + 1 ==> s.wire[s.relay.seqNo].ExitMsg?;
    hide PipeInv, RelayInv, TreeInv, MainInv;
  }

  /** A channel was delivered whole, to its end. */
  ghost predicate Whole(s: State, c: Channel) {
    Payload(s.wire, c) == Written(s.tree, c) && Released(s.tree, c)
  }

  lemma UncutIsWhole(s: State, c: Channel)
    requires Inv(s) && s.relay.phase.Done? && Uncut(s.relay)
    ensures Whole(s, c)
  {
    PayloadOfWire(s, c);
    var relay := s.relay;
    assert relay.taken[..relay.seqNo] == relay.taken;
    Empty(relay.taken);
    Empty(Of(relay.taken, c));
    assert Written(s.tree, c)[..|Written(s.tree, c)|] == Written(s.tree, c);
    hide Of, Payload, MainInv, WireInv;
  }

  /** The one exit message that says nothing about the output: a failed wait. */
  const WAIT_FAILED := ErrorExit(WaitFailed)

  ghost predicate EndsWith(s: State, exit: Msg) {
    s.wire != [] && s.wire[|s.wire| - 1] == exit && exit.ExitMsg?
  }

  /**
   What an exit message means. A timed-out run reports no exit code and its group is dead; an exit that
   is not truncated, unless the wait failed, followed the whole of both channels; and unless the drain
   was given up, the flag says exactly whether the output exceeded the budget, and the timeout exactly
   whether the group was killed.
   */
  lemma ExitMeans(queued: nat, open: bool, steps: seq<Step>, s: State, exit: Msg)
    requires Runs(Start(queued, open), steps, s) && EndsWith(s, exit)
    ensures exit.timedOut ==> exit.code == None && s.tree.killed && GroupGone(s.tree)
    ensures !exit.truncated && exit != WAIT_FAILED ==> Whole(s, Stdout) && Whole(s, Stderr)
    ensures exit.error == None && !s.relay.cancel ==>
              (exit.truncated <==> |s.tree.stdout| + |s.tree.stderr| > STREAM_BUDGET)
              && (!s.relay.gone ==> (exit.timedOut <==> s.tree.killed))
  {
    StartInv(queued, open);
    InvRun(Start(queued, open), steps, s);
    KillRun(Start(queued, open), steps, s);
    if exit.error == None && !s.relay.cancel && !s.relay.gone {
      KilledIffTimedOut(s, exit);
    }
    hide KillInv;
    ExitIsInv(s, exit);
    if !exit.truncated && exit != WAIT_FAILED {
      UncutIsWhole(s, Stdout);
      UncutIsWhole(s, Stderr);
      PayloadWithinBudget(s);
    }
    if exit.truncated {
      PayloadIsPrefix(s, Stdout);
      PayloadIsPrefix(s, Stderr);
      TotalIsSum(s.relay.taken);
    }
    assert RelayInv(s.relay) && TreeInv(s.tree);
    hide Inv, Of, Payload, Total, Runs;
  }

  lemma ExitIsFinished(s: State, exit: Msg)
    requires Inv(s) && EndsWith(s, exit)
    ensures s.main.Finished? && ExitOn(s.wire, s.relay.seqNo) == Some(exit)
  {
    assert WireInv(s.wire, s.relay.taken, s.relay.seqNo);
    hide PipeInv, RelayInv, TreeInv, Clean, ExitInv, MainInv;
  }

  /** Unless the drain was given up or the client is gone, the group is killed exactly by a timeout. */
  lemma KilledIffTimedOut(s: State, exit: Msg)
    requires Inv(s) && KillInv(s) && EndsWith(s, exit) && exit.error == None && !s.relay.cancel && !s.relay.gone
    ensures exit.timedOut <==> s.tree.killed
  {
    ExitIsFinished(s, exit);
    ExitIsInv(s, exit);
    hide Inv, TreeInv;
  }

  lemma ExitIsInv(s: State, exit: Msg)
    requires Inv(s) && EndsWith(s, exit)
    ensures ExitInv(s.tree, s.relay, exit) && (exit.error == Some(WaitFailed) && !exit.truncated ==> exit == WAIT_FAILED)
  {
    hide PipeInv, RelayInv, TreeInv, Clean;
  }

  lemma FinishedExit(s: State)
    requires Inv(s) && s.main.Finished?
    ensures !s.open || (exists exit :: EndsWith(s, exit))
  {
    hide PipeInv, RelayInv, TreeInv, Clean, WireInv;
    if s.open {
      assert EndsWith(s, s.wire[|s.wire| - 1]);
    }
  }

  // ---- progress ----

  /** A step of the runtime or its timers, not of the processes, the client or other tasks. */
  predicate Runtime(step: Step) { !step.Env? && !step.OthersPush? && !step.WriterCloses? }

  function PumpRank(p: Pump): nat {
    match p case Ended => 0 case Reading => 1 case Sending(_) => 7
  }

  function PhaseRank(p: Phase): nat {
    match p case AwaitRecv => 1 case AwaitSend(_) => 3 case Running(_) => 4 case _ => 0
  }

  function MainRank(m: Main): nat {
    match m
    case Spawning => 14
    case Awaiting(w) => 6 + WaitRank(w)
    case Draining(_) => 5
    case Stopping(_, _, _) => 4
    case StopWait(_, _, _) => 3
    case Exiting(_) => 2
    case Finished => 0
  }

  function Unread(t: Tree, c: Channel, r: Reader): nat {
    if r.pos <= |Written(t, c)| then |Written(t, c)| - r.pos else 0
  }

  /** How much the runtime can still do on its own. */
  function Measure(s: State): nat {
    10 * Unread(s.tree, Stdout, s.out) + 10 * Unread(s.tree, Stderr, s.err) + PumpRank(s.out.pump) + PumpRank(s.err.pump)
    + 5 * |s.funnel| + PhaseRank(s.relay.phase) + s.queued + MainRank(s.main)
  }

  lemma RuntimeDecreases(s: State, step: Step)
    requires Enabled(s, step) && Runtime(step)
    ensures Measure(Next(s, step)) < Measure(s)
  {
    if step.PumpRead? || step.PumpEof? || step.PumpSend? || step.PumpLost? {
      PumpDecreases(s, step);
    } else if step.StopKill? || step.Await? {
      KillDecreases(s, step);
    } else {
      OthersDecrease(s, step);
    }
  }

  lemma PumpDecreases(s: State, step: Step)
    requires Enabled(s, step) && (step.PumpRead? || step.PumpEof? || step.PumpSend? || step.PumpLost?)
    ensures Measure(Next(s, step)) < Measure(s)
  {
    hide PhaseRank, MainRank, Released;
  }

  lemma KillDecreases(s: State, step: Step)
    requires Enabled(s, step) && (step.StopKill? || step.Await?)
    ensures Measure(Next(s, step)) < Measure(s)
  {
    assert forall c :: Written(KillTree(s.tree), c) == Written(s.tree, c);
    hide PhaseRank, PumpRank, KillTree;
  }

  lemma OthersDecrease(s: State, step: Step)
    requires Enabled(s, step) && Runtime(step) && !step.StopKill? && !step.Await?
    requires !step.PumpRead? && !step.PumpEof? && !step.PumpSend? && !step.PumpLost?
    ensures Measure(Next(s, step)) < Measure(s)
  {
    hide ExitOf, Released, PumpRank;
    if step.Spawn? {
      SpawnDecreases(s);
    } else {
      hide Unread, Written;
    }
  }

  lemma SpawnDecreases(s: State)
    requires Enabled(s, Spawn)
    ensures Measure(Next(s, Spawn)) < Measure(s)
  {
  }

  /** The main line's own next step, once its timers can fire. */
  function Ahead(s: State): Step
    requires !s.main.Finished?
  {
    match s.main
    case Spawning => Spawn
    case Awaiting(w) => if w.Over? then Await(Deadline) else Await(WaitAhead(s.tree, w))
    case Draining(_) => if s.relay.phase.Done? then Drained else Grace
    case Stopping(_, _, _) => StopKill
    case StopWait(_, _, _) => Stopped
    case Exiting(_) => if !s.open then ExitLost else if s.queued < OUTBOUND_CAP then ExitSent else WriterTakes
  }

  lemma AheadEnabled(s: State)
    requires Inv(s) && !s.main.Finished?
    ensures Enabled(s, Ahead(s)) && Runtime(Ahead(s))
  {
    hide PipeInv, RelayInv, WireInv, Clean, ExitInv, GroupGone;
    if s.main.Awaiting? {
      WaitProgress(s.tree, s.main.wait);
      hide WaitInv, WaitAhead, CanWait, TreeInv;
    }
  }

  /**
   No run is stuck and none goes on for ever: from any reachable state the runtime's own steps are
   boundedly many, and wherever they lead there is another one until the run is finished.
   */
  lemma {:induction false} RunsEnd(s: State, steps: seq<Step>, s': State)
    requires Inv(s) && Runs(s, steps, s') && forall i :: 0 <= i < |steps| ==> Runtime(steps[i])
    ensures |steps| + Measure(s') <= Measure(s)
    ensures !s'.main.Finished? ==> Enabled(s', Ahead(s')) && Runtime(Ahead(s'))
    decreases |steps|
  {
    hide Inv, Measure, Enabled, Ahead, Next, Runtime;
    if steps == [] {
      if !s.main.Finished? {
        AheadEnabled(s);
      }
    } else {
      InvStep(s, steps[0]);
      RuntimeDecreases(s, steps[0]);
      RunsEnd(Next(s, steps[0]), steps[1..], s');
    }
  }

  /** A pump waits for the child: nothing to read, and the pipe is still held. */
  ghost predicate Starved(s: State, c: Channel) {
    End(s, c).pump.Reading? && End(s, c).pos == |Written(s.tree, c)| && !Released(s.tree, c)
  }

  /** The pipeline's own next step. */
  ghost function PipelineAhead(s: State): Step {
    match s.relay.phase
    case Running(_) => Handle
    case AwaitSend(_) => if !s.open then SendFails else if s.queued < OUTBOUND_CAP then Send else WriterTakes
    case _ =>
      if s.funnel != [] then Recv
      else if !s.out.pump.Ended? && !Starved(s, Stdout) then PumpAhead(s, Stdout)
      else if !s.err.pump.Ended? && !Starved(s, Stderr) then PumpAhead(s, Stderr)
      else Step.Close
  }

  ghost function PumpAhead(s: State, c: Channel): Step {
    if End(s, c).pump.Sending? then PumpSend(c)
    else if End(s, c).pos < |Written(s.tree, c)| then PumpRead(c, 1)
    else PumpEof(c)
  }

  /** A step of the pumps or the forwarder. */
  predicate OfPipeline(step: Step) {
    step.PumpRead? || step.PumpEof? || step.PumpSend? || step.PumpLost? || step.Recv? || step.Handle? || step.Send?
    || step.SendFails? || step.Close?
  }

  /** Everything read has been forwarded, and what keeps the stream open is a process that may still write. */
  ghost predicate WaitsForChild(s: State) {
    && s.relay.phase.AwaitRecv? && s.funnel == []
    && (s.out.pump.Ended? || Starved(s, Stdout)) && (s.err.pump.Ended? || Starved(s, Stderr))
    && (Starved(s, Stdout) || Starved(s, Stderr))
  }

  /**
   The bounded funnel cannot deadlock the pipeline, timers aside: until the forwarder has ended or been
   aborted, something can move in every state but those where all that was written has been forwarded and
   a live process still holds a pipe; and there no pump and no forwarder step is possible.
   */
  lemma PipelineMoves(s: State)
    requires Inv(s) && !s.relay.phase.Done? && !s.relay.cancel
    ensures !WaitsForChild(s) ==> Enabled(s, PipelineAhead(s)) && Runtime(PipelineAhead(s))
    ensures WaitsForChild(s) ==> forall step :: OfPipeline(step) ==> !Enabled(s, step)
  {
    hide Enabled, PipelineAhead, WaitsForChild, Runtime, OfPipeline, Inv;
    if WaitsForChild(s) {
      forall step | OfPipeline(step) ensures !Enabled(s, step) { NothingToForward(s, step); }
    } else if s.relay.phase.AwaitRecv? {
      PumpsMove(s);
    } else {
      ForwarderMoves(s);
    }
  }

  lemma NothingToForward(s: State, step: Step)
    requires WaitsForChild(s) && OfPipeline(step)
    ensures !Enabled(s, step)
  {
    hide Released, Written;
  }

  lemma ForwarderMoves(s: State)
    requires Inv(s) && !s.relay.phase.Done? && !s.relay.cancel && !s.relay.phase.AwaitRecv?
    ensures Enabled(s, PipelineAhead(s)) && Runtime(PipelineAhead(s))
  {
    hide PipeInv, RelayInv, WireInv, MainInv, TreeInv;
  }

  lemma PumpsMove(s: State)
    requires Inv(s) && s.relay.phase.AwaitRecv? && !s.relay.cancel && !WaitsForChild(s)
    ensures Enabled(s, PipelineAhead(s)) && Runtime(PipelineAhead(s))
  {
    assert s.out.pos <= |s.tree.stdout| && s.err.pos <= |s.tree.stderr|;
    hide PipeInv, RelayInv, WireInv, MainInv, TreeInv, Released;
  }
}
