/** How a streamed run ends: exactly which exit it sends, and what it leaves behind. */
module ExecStreamExit {
  import opened Results
  import opened Sequences
  import opened ExecTree
  import opened ExecStream
  import opened ExecStreamRuns
  import opened ExecStreamTrust

  /** What has happened so far: the spawn failed, a wait failed, the deadline killed, the drain was given up. */
  datatype Past = Past(spawn: bool, wait: bool, kill: bool, grace: bool)

  const NOTHING := Past(false, false, false, false)

  function PastOf(steps: seq<Step>): Past {
    Past(SpawnFails in steps, Await(Fail) in steps, Await(Kill) in steps, Grace in steps)
  }

  function Also(p: Past, q: Past): Past {
    Past(p.spawn || q.spawn, p.wait || q.wait, p.kill || q.kill, p.grace || q.grace)
  }

  lemma PastSplits(steps: seq<Step>)
    requires steps != []
    ensures PastOf(steps) == Also(PastOf([steps[0]]), PastOf(steps[1..]))
  {
    assert steps == [steps[0]] + steps[1..];
  }

  lemma NoPast()
    ensures PastOf([]) == NOTHING
  {
  }

  /** The wait's result shows whether a wait failed or the deadline killed. */
  predicate WaitTells(w: Waited, p: Past) {
    (w.WaitError? <==> p.wait) && (w.Exited? ==> (w.timedOut <==> p.kill))
  }

  predicate ExitTold(msg: Msg, p: Past) {
    if p.spawn then msg == ExitMsg(None, None, false, false, Some(SpawnFailed))
    else if p.wait then msg == ExitMsg(None, None, false, false, Some(WaitFailed))
    else msg.ExitMsg? && msg.error == None && (msg.timedOut <==> p.kill) && (p.grace ==> msg.truncated)
  }

  predicate MainTells(main: Main, p: Past, exit: Option<Msg>) {
    match main
    case Spawning => p == NOTHING
    case Awaiting(w) => !p.spawn && !p.wait && !p.grace && (p.kill <==> w.Reaping?) && !w.Over?
    case Draining(w) => !p.spawn && !p.grace && WaitTells(w, p)
    case Stopping(w, gone, truncated) => !p.spawn && WaitTells(w, p) && (p.grace <==> !gone) && (!gone ==> truncated)
    case StopWait(w, gone, truncated) => !p.spawn && WaitTells(w, p) && (p.grace <==> !gone) && (!gone ==> truncated)
    case Exiting(msg) => ExitTold(msg, p)
    case Finished => exit.Some? ==> ExitTold(exit.value, p)
  }

  /** Who lost the client or gave up the drain has killed the group before it ends. */
  predicate MustKill(s: State) {
    && ((s.main.Exiting? || s.main.Finished?) && (s.relay.gone || s.relay.cancel) ==> s.tree.killed)
    && (s.main.StopWait? ==> s.tree.killed)
  }

  predicate EndInv(s: State, p: Past) {
    && MainTells(s.main, p, ExitOn(s.wire, s.relay.seqNo))
    && (s.relay.cancel <==> p.grace)
    && MustKill(s)
  }

  /** What the main line's step needs of the invariant. */
  ghost predicate Around(s: State) {
    && (|s.wire| == s.relay.seqNo || s.main.Finished?)
    && (s.main.Spawning? ==> s.relay == IDLE)
    && (s.main.Draining? || s.main.Awaiting? ==> !s.relay.cancel)
  }

  lemma InvAround(s: State)
    requires Inv(s)
    ensures Around(s) && (|s.wire| == s.relay.seqNo || Quiet(s.relay))
    ensures s.main.Exiting? || s.main.Finished? ==> Quiet(s.relay)
  {
    hide PipeInv, RelayInv, WireInv, TreeInv, Clean, ExitInv, WaitInv;
  }

  lemma EndMainStep(s: State, step: Step, p: Past)
    requires EndInv(s, p) && Enabled(s, step) && OfMain(step) && Around(s)
    ensures EndInv(Next(s, step), Also(p, PastOf([step])))
  {
    if step.Await? {
      EndAwaitStep(s, step, p);
    } else {
      hide WaitNext, CanWait;
      EndOtherStep(s, step, p);
    }
  }

  lemma EndAwaitStep(s: State, step: Step, p: Past)
    requires EndInv(s, p) && Enabled(s, step) && step.Await? && Around(s)
    ensures EndInv(Next(s, step), Also(p, PastOf([step])))
  {
    hide Released, Eof, Written;
  }

  lemma EndOtherStep(s: State, step: Step, p: Past)
    requires EndInv(s, p) && Enabled(s, step) && OfMain(step) && !step.Await? && Around(s)
    ensures EndInv(Next(s, step), Also(p, PastOf([step])))
  {
    hide Released, Eof, Written, WaitNext, CanWait, Acted, CanAct;
  }

  lemma EndStep(s: State, step: Step, p: Past)
    requires EndInv(s, p) && Enabled(s, step) && Inv(s)
    ensures EndInv(Next(s, step), Also(p, PastOf([step])))
  {
    InvAround(s);
    hide Inv, Next, Enabled, MainTells;
    if OfMain(step) {
      EndMainStep(s, step, p);
    } else {
      assert PastOf([step]) == NOTHING;
      hide OfMain, PastOf;
      OthersKeep(s, step);
    }
  }

  lemma {:induction false} EndRun(s: State, steps: seq<Step>, s': State, p: Past)
    requires EndInv(s, p) && Inv(s) && Runs(s, steps, s')
    ensures EndInv(s', Also(p, PastOf(steps))) && Inv(s')
    decreases |steps|
  {
    hide EndInv, Inv, PastOf;
    if steps == [] {
      NoPast();
    } else {
      EndStep(s, steps[0], p);
      InvStep(s, steps[0]);
      PastSplits(steps);
      hide Next;
      EndRun(Next(s, steps[0]), steps[1..], s', Also(p, PastOf([steps[0]])));
    }
  }

  /**
   The exit that a run sends, whichever it is: fixed by whether the spawn failed, a wait failed, the
   deadline killed or the drain was given up, by the leader's status, and by how much was written.
   */
  lemma ExitTells(queued: nat, open: bool, steps: seq<Step>, s: State, exit: Msg)
    requires Runs(Start(queued, open), steps, s) && EndsWith(s, exit)
    ensures SpawnFails in steps ==> exit == ExitMsg(None, None, false, false, Some(SpawnFailed))
    ensures SpawnFails !in steps && Await(Fail) in steps ==> exit == ExitMsg(None, None, false, false, Some(WaitFailed))
    ensures SpawnFails !in steps && Await(Fail) !in steps ==>
              s.tree.status.Some? &&
              exit == ExitMsg(
                if Await(Kill) in steps then None else s.tree.status.value.code,
                s.tree.status.value.signal,
                Await(Kill) in steps,
                Grace in steps || |s.tree.stdout| + |s.tree.stderr| > 8 * 1024 * 1024,
                None)
  {
    EndFrom(queued, open, steps, s);
    ExitIsFinished(s, exit);
    ExitIsInv(s, exit);
    ExitMeans(queued, open, steps, s, exit);
    hide Inv, Runs, EndsWith, Whole, GroupGone;
  }

  lemma EndFrom(queued: nat, open: bool, steps: seq<Step>, s: State)
    requires Runs(Start(queued, open), steps, s)
    ensures EndInv(s, PastOf(steps)) && Inv(s)
  {
    StartInv(queued, open);
    EndRun(Start(queued, open), steps, s, NOTHING);
    hide Runs, Inv;
  }

  /**
   A finished run sent its exit, or the client is gone. Both pipes reached their end, or the group was
   killed and no process of it is left; and it was killed for certain if the client was lost while output
   was sent to it, or if the drain was given up.
   */
  lemma FinishedIsClean(queued: nat, open: bool, steps: seq<Step>, s: State)
    requires Runs(Start(queued, open), steps, s) && s.main.Finished?
    ensures !s.open || (exists exit :: EndsWith(s, exit))
    ensures (Eof(s.tree, Stdout, s.out) && Eof(s.tree, Stderr, s.err)) || (s.tree.killed && GroupGone(s.tree))
    ensures s.relay.gone || Grace in steps ==> s.tree.killed && GroupGone(s.tree)
  {
    EndFrom(queued, open, steps, s);
    hide Runs;
    FinishedExit(s);
    assert TreeInv(s.tree) && Clean(s.tree, s.out, s.err) by { hide PipeInv, RelayInv, WireInv, TreeInv, Clean; }
    hide Inv, Eof, GroupGone, EndsWith;
  }

  // ---- bounded buffers ----

  predicate Sized(data: seq<Byte>) { 1 <= |data| <= 65536 }

  ghost predicate AllSized(chunks: seq<Chunk>) {
    forall i :: 0 <= i < |chunks| ==> Sized(chunks[i].data)
  }

  ghost predicate Bounded(s: State) {
    && |s.funnel| <= 8 && s.queued <= 32
    && (s.out.pump.Sending? ==> Sized(s.out.pump.data)) && (s.err.pump.Sending? ==> Sized(s.err.pump.data))
    && AllSized(s.funnel) && AllSized(s.relay.taken)
  }

  lemma BoundedStep(s: State, step: Step)
    requires Bounded(s) && Enabled(s, step)
    ensures Bounded(Next(s, step))
  {
    hide Released, Eof, KillTree, Acted, CanAct, ExitOf, WaitNext;
  }

  lemma {:induction false} BoundedRun(s: State, steps: seq<Step>, s': State)
    requires Bounded(s) && Runs(s, steps, s')
    ensures Bounded(s')
    decreases |steps|
  {
    hide Bounded;
    if steps != [] {
      BoundedStep(s, steps[0]);
      BoundedRun(Next(s, steps[0]), steps[1..], s');
    }
  }

  /** However fast the child writes: at most 8 chunks wait in the funnel, and each output has 1 to 65536 bytes. */
  lemma BuffersAreBounded(queued: nat, open: bool, steps: seq<Step>, s: State)
    requires Runs(Start(queued, open), steps, s) && queued <= 32
    ensures |s.funnel| <= 8 && s.queued <= 32
    ensures forall i :: 0 <= i < |s.wire| && s.wire[i].Output? ==> 1 <= |s.wire[i].data| <= 65536
  {
    BoundedRun(Start(queued, open), steps, s);
    StartInv(queued, open);
    InvRun(Start(queued, open), steps, s);
    hide Runs;
    assert WireInv(s.wire, s.relay.taken, s.relay.seqNo) by { hide PipeInv, RelayInv, TreeInv, MainInv, Bounded; }
    WireShape(s);
    ExitLast(s);
    hide Inv;
  }

  lemma ExitLast(s: State)
    requires Inv(s)
    ensures forall i :: s.relay.seqNo <= i < |s.wire| ==> s.wire[i].ExitMsg?
  {
    hide PipeInv, RelayInv, TreeInv, Clean, WireInv, Released;
  }

  // ---- a daemon that holds the pipes ----

  /** The leader leaves a child behind and exits; the child keeps both pipes and never ends on its own. */
  lemma {:induction false} DaemonIsCut() returns (steps: seq<Step>, s: State)
    ensures Runs(Start(0, true), steps, s) && s.main.Finished? && Await(Kill) !in steps
    ensures s.wire == [ExitMsg(Some(0), None, false, true, None)] && s.tree.procs == map[]
  {
    var s4, first := LeavesDaemon();
    hide *;
    var s6, middle := GivesUp(s4);
    var last;
    s, last := CutsAndReports(s6);
    RunsConcat(s4, middle, s6, last, s);
    RunsConcat(Start(0, true), first, s4, middle + last, s);
    steps := first + (middle + last);
  }

  const DAEMON: Tree := Tree(map[1 := Proc(true, {Stdout, Stderr})], Some(Status(Some(0), None)), false, [], [])

  lemma LeavesDaemon() returns (s: State, steps: seq<Step>)
    ensures Runs(Start(0, true), steps, s) && Await(Kill) !in steps
    ensures s == State(Awaiting(Waiting), DAEMON, Reader(0, Reading), Reader(0, Reading), [],
                       IDLE.(phase := AwaitRecv), [], 0, true)
  {
    var fork, exit := Env(Fork(LEADER, 1)), Env(Exit(LEADER, Status(Some(0), None)));
    var s1 := Next(Start(0, true), Spawn);
    var s2 := Next(s1, fork);
    s := Next(s2, exit);
    assert s.tree.procs == DAEMON.procs;
    assert Runs(s, [], s);
    hide Runs;
    RunsCons(s2, exit, [], s);
    RunsCons(s1, fork, [exit] + [], s);
    RunsCons(Start(0, true), Spawn, [fork] + ([exit] + []), s);
    steps := [Spawn] + ([fork] + ([exit] + []));
  }

  lemma GivesUp(s: State) returns (s': State, steps: seq<Step>)
    requires s.main == Awaiting(Waiting) && s.tree == DAEMON
    ensures Runs(s, steps, s') && Await(Kill) !in steps
    ensures s' == s.(main := Stopping(Exited(Status(Some(0), None), false), false, true), relay := s.relay.(cancel := true))
  {
    var s1 := Next(s, Await(Reap));
    s' := Next(s1, Grace);
    assert Runs(s', [], s');
    hide Runs;
    RunsCons(s1, Grace, [], s');
    RunsCons(s, Await(Reap), [Grace] + [], s');
    steps := [Await(Reap)] + ([Grace] + []);
  }

  lemma CutsAndReports(s: State) returns (s': State, steps: seq<Step>)
    requires s.main == Stopping(Exited(Status(Some(0), None), false), false, true) && s.open && s.queued == 0
    requires s.tree == DAEMON && s.wire == []
    ensures Runs(s, steps, s') && s'.main.Finished? && Await(Kill) !in steps
    ensures s'.wire == [ExitMsg(Some(0), None, false, true, None)] && s'.tree.procs == map[]
  {
    var s1 := Next(s, StopKill);
    assert s1 == s.(main := StopWait(Exited(Status(Some(0), None), false), false, true), tree := KillTree(DAEMON));
    assert s1.tree.procs == map[] && s1.tree.status.Some?;
    hide Runs, Next, KillTree;
    var rest;
    s', rest := Reports(s1);
    RunsCons(s, StopKill, rest, s');
    steps := [StopKill] + rest;
  }

  lemma Reports(s: State) returns (s': State, steps: seq<Step>)
    requires s.main == StopWait(Exited(Status(Some(0), None), false), false, true) && s.open && s.queued == 0
    requires s.wire == [] && s.tree.status.Some?
    ensures Runs(s, steps, s') && s'.main.Finished? && Await(Kill) !in steps
    ensures s'.wire == [ExitMsg(Some(0), None, false, true, None)] && s'.tree == s.tree
  {
    var s1 := Next(s, Stopped);
    s' := Next(s1, ExitSent);
    assert Runs(s', [], s');
    hide Runs;
    RunsCons(s1, ExitSent, [], s');
    RunsCons(s, Stopped, [ExitSent] + [], s');
    steps := [Stopped] + ([ExitSent] + []);
  }
}
