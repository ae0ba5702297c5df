/**
 The buffered exec: two capture tasks keep the first bytes of each pipe while the child is awaited;
 their results are joined within a grace period, and a pipe still open then gets the group killed.
 */
module ExecBuffered {
  import opened Results
  import opened Sequences
  import opened ExecTree

  const BUFFERED_CAP := 256 * 1024

  // ---- one capture: the first `cap` bytes of a pipe ----

  function First(data: seq<Byte>, cap: nat): (kept: seq<Byte>)
    ensures kept <= data && |kept| <= cap && (|data| <= cap ==> kept == data)
  {
    if |data| <= cap then data else data[..cap]
  }

  /** The loop body of `read_capped` for one non-empty read. */
  function Absorb(kept: seq<Byte>, truncated: bool, data: seq<Byte>, cap: nat): (seq<Byte>, bool) {
    if |kept| < cap then
      var take := if |data| <= cap - |kept| then |data| else cap - |kept|;
      (kept + data[..take], truncated || take < |data|)
    else (kept, true)
  }

  /** What has been kept of `all`, whatever reads it came in. */
  ghost predicate Captured(all: seq<Byte>, kept: seq<Byte>, truncated: bool, cap: nat) {
    kept == First(all, cap) && (truncated <==> |all| > cap)
  }

  lemma AbsorbCaptures(all: seq<Byte>, kept: seq<Byte>, truncated: bool, data: seq<Byte>, cap: nat)
    requires Captured(all, kept, truncated, cap) && data != []
    ensures Captured(all + data, Absorb(kept, truncated, data, cap).0, Absorb(kept, truncated, data, cap).1, cap)
  {
  }

  /** The reads up to the end of the pipe: the first empty (or failed) one. */
  function BeforeEnd(gets: seq<seq<Byte>>): seq<seq<Byte>> {
    if gets == [] || gets[0] == [] then [] else [gets[0]] + BeforeEnd(gets[1..])
  }

  lemma {:induction false} BeforeEndIs(gets: seq<seq<Byte>>, n: nat)
    requires n <= |gets| && (forall i :: 0 <= i < n ==> gets[i] != []) && (n == |gets| || gets[n] == [])
    ensures BeforeEnd(gets) == gets[..n]
    decreases n
  {
    if n > 0 {
      BeforeEndIs(gets[1..], n - 1);
      SplitFirst(gets, n);
    }
  }

  lemma SplitFirst<T>(s: seq<T>, n: nat)
    requires 1 <= n <= |s|
    ensures s[..n] == [s[0]] + s[1..][..n - 1]
  {
  }

  /** One more read captured. */
  lemma CaptureMore(gets: seq<seq<Byte>>, i: nat, kept: seq<Byte>, truncated: bool, cap: nat)
    requires i < |gets| && gets[i] != [] && Captured(Flatten(gets[..i]), kept, truncated, cap)
    ensures Captured(Flatten(gets[..i + 1]), Absorb(kept, truncated, gets[i], cap).0, Absorb(kept, truncated, gets[i], cap).1, cap)
  {
    hide Captured, Flatten, Absorb;
    AbsorbCaptures(Flatten(gets[..i]), kept, truncated, gets[i], cap);
    SplitAt(gets, i);
    FlattenAppend(gets[..i], gets[i]);
  }

  ghost predicate NoneEmpty(gets: seq<seq<Byte>>, n: nat)
    requires n <= |gets|
  {
    forall i :: 0 <= i < n ==> gets[i] != []
  }

  lemma NothingCaptured(gets: seq<seq<Byte>>, cap: nat)
    ensures Captured(Flatten(gets[..0]), [], false, cap) && NoneEmpty(gets, 0)
  {
  }

  /** `read_capped`: `gets` are the results of the successive reads. */
  method ReadCapped(gets: seq<seq<Byte>>, cap: nat) returns (kept: seq<Byte>, truncated: bool)
    ensures Captured(Flatten(BeforeEnd(gets)), kept, truncated, cap)
  {
    hide Captured, Flatten, BeforeEnd;
    kept, truncated := [], false;
    NothingCaptured(gets, cap);
    var i := 0;
    while i < |gets| && gets[i] != []
      invariant 0 <= i <= |gets| && NoneEmpty(gets, i)
      invariant Captured(Flatten(gets[..i]), kept, truncated, cap)
      decreases |gets| - i
    {
      CaptureMore(gets, i, kept, truncated, cap);
      ghost var (kept', truncated') := Absorb(kept, truncated, gets[i], cap);
      var n := |gets[i]|;
      if |kept| < cap {
        var take := if n <= cap - |kept| then n else cap - |kept|;
        kept := kept + gets[i][..take];
        if take < n {
          truncated := true;
        }
      } else {
        truncated := true;
      }
      assert kept == kept' && truncated == truncated';
      i := i + 1;
    }
    BeforeEndIs(gets, i);
  }

  // ---- the run ----

  /** A capture task, and what its join yields. */
  datatype Capture = Capturing(pos: nat, kept: seq<Byte>, truncated: bool) | Captures(kept: seq<Byte>, truncated: bool)

  datatype Drained = Drained(bytes: seq<Byte>, truncated: bool, stalled: bool)

  datatype Outcome = Outcome(waited: Waited, stdout: Drained, stderr: Drained)

  datatype Error = SpawnFailed | WaitFailed

  datatype Main =
    | Spawning
    | Awaiting(wait: Wait)
    | Draining(waited: Waited, out: Option<Drained>, err: Option<Drained>)
    | Returned(result: Result<Outcome, Error>)

  datatype State = State(main: Main, tree: Tree, out: Capture, err: Capture)

  const START := State(Spawning, UNSPAWNED, Capturing(0, [], false), Capturing(0, [], false))

  datatype Step =
    | Env(act: Act)
    | Spawn
    | SpawnFails
    | Read(channel: Channel, n: nat)   // a capture task gets n bytes
    | Eof(channel: Channel)
    | Await(step: WaitStep)
    | Join(channel: Channel)           // the capture task ended within the grace period
    | Grace(channel: Channel)          // the grace period ended first
    | Collect

  function Task(s: State, c: Channel): Capture { if c.Stdout? then s.out else s.err }

  function SetTask(s: State, c: Channel, t: Capture): State { if c.Stdout? then s.(out := t) else s.(err := t) }

  function Slot(m: Main, c: Channel): Option<Drained>
    requires m.Draining?
  {
    if c.Stdout? then m.out else m.err
  }

  function SetSlot(m: Main, c: Channel, d: Drained): Main
    requires m.Draining?
  {
    if c.Stdout? then m.(out := Some(d)) else m.(err := Some(d))
  }

  ghost predicate Enabled(s: State, step: Step) {
    match step
    case Env(a) => CanAct(s.tree, a)
    case Spawn => s.main.Spawning?
    case SpawnFails => s.main.Spawning?
    case Read(c, n) =>
      !s.main.Spawning? && Task(s, c).Capturing? && 1 <= n <= STREAM_CHUNK && Task(s, c).pos + n <= |Written(s.tree, c)|
    case Eof(c) =>
      !s.main.Spawning? && Task(s, c).Capturing? && Task(s, c).pos == |Written(s.tree, c)| && Released(s.tree, c)
    case Await(w) => s.main.Awaiting? && CanWait(s.tree, s.main.wait, w)
    case Join(c) => s.main.Draining? && Slot(s.main, c).None? && Task(s, c).Captures?
    case Grace(c) => s.main.Draining? && Slot(s.main, c).None?
    case Collect => s.main.Draining? && s.main.out.Some? && s.main.err.Some?
  }

  ghost function Next(s: State, step: Step): State
    requires Enabled(s, step)
  {
    match step
    case Env(a) => s.(tree := Acted(s.tree, a))
    case Spawn => s.(main := Awaiting(Waiting), tree := SPAWNED)
    case SpawnFails => s.(main := Returned(Err(SpawnFailed)))
    case Read(c, n) =>
      var t := Task(s, c);
      var (kept, truncated) := Absorb(t.kept, t.truncated, Written(s.tree, c)[t.pos..t.pos + n], BUFFERED_CAP);
      SetTask(s, c, Capturing(t.pos + n, kept, truncated))
    case Eof(c) => SetTask(s, c, Captures(Task(s, c).kept, Task(s, c).truncated))
    case Await(w) => s.(main := AfterWait(WaitNext(s.tree, s.main.wait, w)), tree := WaitTree(s.tree, w))
    case Join(c) => s.(main := SetSlot(s.main, c, Drained(Task(s, c).kept, Task(s, c).truncated, false)))
    case Grace(c) => s.(main := SetSlot(s.main, c, Drained([], true, true)))
    case Collect =>
      var out, err := s.main.out.value, s.main.err.value;
      s.(main := Returned(Ok(Outcome(s.main.waited, out, err))),
         tree := if out.stalled || err.stalled then KillTree(s.tree) else s.tree)
  }

  /** A failed wait returns at once; otherwise both captures are drained. */
  function AfterWait(w: Wait): Main {
    match w
    case Over(WaitError) => Returned(Err(WaitFailed))
    case Over(waited) => Draining(waited, None, None)
    case _ => Awaiting(w)
  }

  ghost predicate Runs(s: State, steps: seq<Step>, s': State)
    decreases |steps|
  {
    if steps == [] then s' == s else Enabled(s, steps[0]) && Runs(Next(s, steps[0]), steps[1..], s')
  }

  // ---- what every run keeps ----

  ghost predicate TaskInv(s: State, c: Channel) {
    var all := Written(s.tree, c);
    match Task(s, c)
    case Capturing(pos, kept, truncated) => pos <= |all| && Captured(all[..pos], kept, truncated, BUFFERED_CAP)
    case Captures(kept, truncated) => Complete(s.tree, c, kept, truncated)
  }

  /** Everything the pipe will ever carry has been captured. */
  ghost predicate Complete(t: Tree, c: Channel, kept: seq<Byte>, truncated: bool) {
    Released(t, c) && Captured(Written(t, c), kept, truncated, BUFFERED_CAP)
  }

  /** A drained channel is complete, or was given up with nothing and the flag set. */
  ghost predicate DrainedInv(t: Tree, c: Channel, d: Drained) {
    if d.stalled then d.bytes == [] && d.truncated else Complete(t, c, d.bytes, d.truncated)
  }

  ghost predicate MainInv(s: State) {
    match s.main
    case Spawning => s == START
    case Awaiting(w) => WaitInv(s.tree, w)
    case Draining(waited, out, err) =>
      && waited.Exited? && WaitInv(s.tree, Over(waited))
      && (out.Some? ==> DrainedInv(s.tree, Stdout, out.value)) && (err.Some? ==> DrainedInv(s.tree, Stderr, err.value))
    case Returned(Ok(o)) => OutcomeInv(s.tree, o)
    case Returned(Err(_)) => true
  }

  ghost predicate OutcomeInv(t: Tree, o: Outcome) {
    && o.waited.Exited? && WaitInv(t, Over(o.waited))
    && DrainedInv(t, Stdout, o.stdout) && DrainedInv(t, Stderr, o.stderr)
    && (o.stdout.stalled || o.stderr.stalled ==> t.killed)
  }

  ghost predicate Inv(s: State) {
    TreeInv(s.tree) && TaskInv(s, Stdout) && TaskInv(s, Stderr) && MainInv(s)
  }

  /** What was captured or drained stays so in a later tree. */
  lemma StaysCaptured(s: State, t': Tree)
    requires Inv(s) && Later(s.tree, t') && TreeInv(t') && !s.main.Spawning?
    ensures Inv(s.(tree := t'))
  {
    var s' := s.(tree := t');
    forall c ensures TaskInv(s', c) { StaysTask(s, c, t'); }
    forall c, d | DrainedInv(s.tree, c, d) ensures DrainedInv(t', c, d) { StaysDrained(s.tree, c, d, t'); }
    forall w | WaitInv(s.tree, w) ensures WaitInv(t', w) { WaitStays(s.tree, w, t'); }
    assert s.tree.killed ==> t'.killed;
    hide TaskInv, DrainedInv, WaitInv, TreeInv, Later;
  }

  lemma StaysTask(s: State, c: Channel, t': Tree)
    requires Later(s.tree, t') && TaskInv(s, c)
    ensures TaskInv(s.(tree := t'), c)
  {
    hide Captured;
    if Task(s, c).Capturing? {
      assert Written(t', c)[..Task(s, c).pos] == Written(s.tree, c)[..Task(s, c).pos];
    }
  }

  lemma StaysDrained(t: Tree, c: Channel, d: Drained, t': Tree)
    requires Later(t, t') && DrainedInv(t, c, d)
    ensures DrainedInv(t', c, d)
  {
    hide Captured;
  }

  lemma TaskRead(s: State, c: Channel, n: nat)
    requires TaskInv(s, c) && Enabled(s, Read(c, n))
    ensures TaskInv(Next(s, Read(c, n)), c)
  {
    var all, pos := Written(s.tree, c), Task(s, c).pos;
    AbsorbCaptures(all[..pos], Task(s, c).kept, Task(s, c).truncated, all[pos..pos + n], BUFFERED_CAP);
    hide Captured, Absorb;
    assert all[..pos + n] == all[..pos] + all[pos..pos + n];
  }

  lemma ReadKeeps(s: State, c: Channel, n: nat)
    requires Inv(s) && Enabled(s, Read(c, n))
    ensures Inv(Next(s, Read(c, n)))
  {
    var other := if c.Stdout? then Stderr else Stdout;
    assert TaskInv(s, other) ==> TaskInv(Next(s, Read(c, n)), other);
    hide TreeInv, MainInv, TaskInv, Absorb;
    TaskRead(s, c, n);
    SameMain(s, Next(s, Read(c, n)));
  }

  lemma SameMain(s: State, s': State)
    requires s.main == s'.main && s.tree == s'.tree && !s.main.Spawning?
    ensures MainInv(s) == MainInv(s')
  {
    hide WaitInv, DrainedInv, OutcomeInv;
  }

  lemma EofKeeps(s: State, c: Channel)
    requires Inv(s) && Enabled(s, Eof(c))
    ensures Inv(Next(s, Eof(c)))
  {
    hide TreeInv, MainInv, Captured;
    SameMain(s, Next(s, Eof(c)));
    assert Written(s.tree, c)[..|Written(s.tree, c)|] == Written(s.tree, c);
  }

  lemma JoinKeeps(s: State, step: Step)
    requires (step.Join? || step.Grace?) && Inv(s) && Enabled(s, step)
    ensures Inv(Next(s, step))
  {
    hide TreeInv, Captured, WaitInv, Released;
    assert Next(s, step).main.Draining?;
    assert TaskInv(s, step.channel);
  }

  lemma AwaitKeeps(s: State, w: WaitStep)
    requires Inv(s) && Enabled(s, Await(w))
    ensures Inv(Next(s, Await(w)))
  {
    WaitKeeps(s.tree, s.main.wait, w);
    hide TaskInv, TreeInv, Later, DrainedInv;
    StaysCaptured(s, WaitTree(s.tree, w));
  }

  lemma InvStep(s: State, step: Step)
    requires Inv(s) && Enabled(s, step)
    ensures Inv(Next(s, step))
  {
    hide Captured, Absorb, TreeInv, WaitInv, DrainedInv, Acted, Later, OutcomeInv;
    match step
    case Env(a) =>
      assert s.tree != UNSPAWNED;
      ActedKeeps(s.tree, a);
      StaysCaptured(s, Acted(s.tree, a));
    case Await(w) => AwaitKeeps(s, w);
    case Collect => CollectKeeps(s);
    case Read(c, n) => ReadKeeps(s, c, n);
    case Eof(c) => EofKeeps(s, c);
    case Spawn => SpawnKeeps(s);
    case SpawnFails => assert Inv(s.(main := Returned(Err(SpawnFailed))));
    case Join(_) => JoinKeeps(s, step);
    case Grace(_) => JoinKeeps(s, step);
  }

  lemma SpawnKeeps(s: State)
    requires Inv(s) && Enabled(s, Spawn)
    ensures Inv(Next(s, Spawn))
  {
  }

  lemma CollectKeeps(s: State)
    requires Inv(s) && Enabled(s, Collect)
    ensures Inv(Next(s, Collect))
  {
    KillKeeps(s.tree);
    hide TaskInv, TreeInv, Later, DrainedInv, KillTree, GroupGone, WaitInv;
    StaysCaptured(s, KillTree(s.tree));
  }

  lemma {:induction false} InvRun(s: State, steps: seq<Step>, s': State)
    requires Inv(s) && Runs(s, steps, s')
    ensures Inv(s')
    decreases |steps|
  {
    hide Inv;
    if steps != [] {
      InvStep(s, steps[0]);
      InvRun(Next(s, steps[0]), steps[1..], s');
    }
  }

  /** Why the group was killed: the deadline, or a drain that was given up. */
  ghost predicate KillInv(s: State) {
    s.tree.killed ==>
      match s.main
      case Spawning => false
      case Awaiting(w) => w.Reaping?
      case Draining(waited, _, _) => waited.WaitError? || waited.timedOut
      case Returned(Ok(o)) => (o.waited.Exited? ==> o.waited.timedOut) || o.stdout.stalled || o.stderr.stalled
      case Returned(Err(_)) => true
  }

  lemma KillStep(s: State, step: Step)
    requires KillInv(s) && Enabled(s, step)
    ensures KillInv(Next(s, step))
  {
    hide Absorb, Released;
  }

  lemma {:induction false} KillRun(s: State, steps: seq<Step>, s': State)
    requires KillInv(s) && Runs(s, steps, s')
    ensures KillInv(s')
    decreases |steps|
  {
    hide KillInv;
    if steps != [] {
      KillStep(s, steps[0]);
      hide Next;
      KillRun(Next(s, steps[0]), steps[1..], s');
    }
  }

  /** What a caller may conclude from one captured channel, given all that was ever written to the pipe. */
  ghost predicate Honest(t: Tree, c: Channel, d: Drained) {
    && d.bytes <= Written(t, c)
    && (!d.truncated ==> d.bytes == Written(t, c) && Released(t, c))
    && (d.truncated && !d.stalled ==> |Written(t, c)| > BUFFERED_CAP && |d.bytes| == BUFFERED_CAP)
  }

  /**
   Every run that returns an outcome captured honestly; it left both pipes at EOF or killed the group,
   which then holds neither pipe; a timed-out run was killed and reports no exit code; and nothing is
   killed but a run that timed out or whose drain was given up.
   */
  lemma BufferedIsHonest(steps: seq<Step>, s: State)
    requires Runs(START, steps, s) && s.main.Returned? && s.main.result.Ok?
    ensures var o := s.main.result.value;
            && Honest(s.tree, Stdout, o.stdout) && Honest(s.tree, Stderr, o.stderr)
            && ((Released(s.tree, Stdout) && Released(s.tree, Stderr)) || (s.tree.killed && GroupGone(s.tree)))
            && o.waited.Exited? && s.tree.status == Some(o.waited.status)
            && (o.waited.timedOut ==> s.tree.killed && GroupGone(s.tree) && ExitCode(o.waited) == None)
            && (s.tree.killed <==> o.waited.timedOut || o.stdout.stalled || o.stderr.stalled)
  {
    InvRun(START, steps, s);
    KillRun(START, steps, s);
    hide GroupGone, Captured, Runs;
  }

  // ---- what the result says ----

  /** What has happened so far: the spawn failed, the wait failed, the deadline killed, a drain was given up. */
  datatype Past = Past(spawn: bool, wait: bool, kill: bool, out: bool, err: bool)

  function PastOf(steps: seq<Step>): Past {
    Past(SpawnFails in steps, Await(Fail) in steps, Await(Kill) in steps, Grace(Stdout) in steps, Grace(Stderr) in steps)
  }

  function Also(p: Past, q: Past): Past {
    Past(p.spawn || q.spawn, p.wait || q.wait, p.kill || q.kill, p.out || q.out, p.err || q.err)
  }

  lemma PastSplits(steps: seq<Step>)
    ensures if steps == [] then PastOf(steps) == Past(false, false, false, false, false)
            else PastOf(steps) == Also(PastOf([steps[0]]), PastOf(steps[1..]))
  {
    assert steps != [] ==> steps == [steps[0]] + steps[1..];
  }

  predicate DrainTells(d: Option<Drained>, gaveUp: bool) {
    if d.None? then !gaveUp else if gaveUp then d.value == Drained([], true, true) else !d.value.stalled
  }

  predicate MainTells(main: Main, p: Past) {
    match main
    case Spawning => p == Past(false, false, false, false, false)
    case Awaiting(w) => !w.Over? && p == Past(false, false, w.Reaping?, false, false)
    case Draining(w, out, err) =>
      !p.spawn && !p.wait && w.Exited? && (w.timedOut <==> p.kill) && DrainTells(out, p.out) && DrainTells(err, p.err)
    case Returned(Err(SpawnFailed)) => p.spawn
    case Returned(Err(WaitFailed)) => !p.spawn && p.wait
    case Returned(Ok(o)) =>
      && !p.spawn && !p.wait && o.waited.Exited? && (o.waited.timedOut <==> p.kill)
      && DrainTells(Some(o.stdout), p.out) && DrainTells(Some(o.stderr), p.err)
  }

  lemma TellStep(s: State, step: Step, p: Past)
    requires MainTells(s.main, p) && Enabled(s, step)
    ensures MainTells(Next(s, step).main, Also(p, PastOf([step])))
  {
    hide Absorb, Released, Written, Acted, CanAct, KillTree;
  }

  lemma {:induction false} TellRun(s: State, steps: seq<Step>, s': State, p: Past)
    requires MainTells(s.main, p) && Runs(s, steps, s')
    ensures MainTells(s'.main, Also(p, PastOf(steps)))
    decreases |steps|
  {
    PastSplits(steps);
    hide MainTells, PastOf;
    if steps != [] {
      TellStep(s, steps[0], p);
      hide Next;
      TellRun(Next(s, steps[0]), steps[1..], s', Also(p, PastOf([steps[0]])));
    }
  }

  /** What a drained channel must be: nothing when it was given up, or else the first 262144 bytes of all that was written. */
  ghost predicate FirstBytes(d: Drained, all: seq<Byte>, gaveUp: bool) {
    if gaveUp then d == Drained([], true, true)
    else d == Drained(if |all| <= 262144 then all else all[..262144], |all| > 262144, false)
  }

  /**
   The result of every run, whichever it is: fixed by whether the spawn failed, the wait failed, the
   deadline killed or a drain was given up, by the leader's status, and by what was written.
   */
  lemma BufferedTells(steps: seq<Step>, s: State)
    requires Runs(START, steps, s) && s.main.Returned?
    ensures SpawnFails in steps ==> s.main.result == Err(SpawnFailed)
    ensures SpawnFails !in steps && Await(Fail) in steps ==> s.main.result == Err(WaitFailed)
    ensures SpawnFails !in steps && Await(Fail) !in steps ==>
              && s.main.result.Ok? && s.tree.status.Some?
              && s.main.result.value.waited == Exited(s.tree.status.value, Await(Kill) in steps)
              && FirstBytes(s.main.result.value.stdout, s.tree.stdout, Grace(Stdout) in steps)
              && FirstBytes(s.main.result.value.stderr, s.tree.stderr, Grace(Stderr) in steps)
  {
    TellRun(START, steps, s, PastOf([]));
    InvRun(START, steps, s);
    hide GroupGone, Runs, Released;
  }

  // ---- progress ----

  /** A step that an unreturned run can always take, once its timers can fire. */
  function Ahead(s: State): Step
    requires !s.main.Returned?
  {
    match s.main
    case Spawning => Spawn
    case Awaiting(w) => if w.Over? then Await(Deadline) else Await(WaitAhead(s.tree, w))
    case Draining(_, out, err) => if out.None? then Grace(Stdout) else if err.None? then Grace(Stderr) else Collect
  }

  function Rank(m: Main): nat {
    match m
    case Spawning => 9
    case Awaiting(w) => 4 + WaitRank(w)
    case Draining(_, out, err) => 1 + (if out.None? then 1 else 0) + (if err.None? then 1 else 0)
    case Returned(_) => 0
  }

  ghost predicate Unfinished(s: State) { s.main.Awaiting? ==> !s.main.wait.Over? }

  /** No state is stuck, whatever the child does: the run has a step that brings it closer to returning. */
  lemma BufferedProgress(s: State)
    requires Inv(s) && Unfinished(s) && !s.main.Returned?
    ensures Enabled(s, Ahead(s)) && Unfinished(Next(s, Ahead(s)))
    ensures Rank(Next(s, Ahead(s)).main) < Rank(s.main)
  {
    if s.main.Awaiting? {
      WaitProgress(s.tree, s.main.wait);
    }
  }

  /** No step of the run other than its own moves its main line back. */
  lemma RankNeverGrows(s: State, step: Step)
    requires Enabled(s, step) && Unfinished(s)
    ensures Unfinished(Next(s, step)) && Rank(Next(s, step).main) <= Rank(s.main)
  {
  }

  lemma {:induction false} UnfinishedRun(s: State, steps: seq<Step>, s': State)
    requires Unfinished(s) && Runs(s, steps, s')
    ensures Unfinished(s') && Rank(s'.main) <= Rank(s.main)
    decreases |steps|
  {
    hide Unfinished, Rank;
    if steps != [] {
      RankNeverGrows(s, steps[0]);
      hide Next;
      UnfinishedRun(Next(s, steps[0]), steps[1..], s');
    }
  }

  /**
   Whatever the child does, a run is never stuck: from every reachable state short of returning it has a
   step of its own, which no other step can take back, and at most nine of these lead it to return.
   */
  lemma BufferedRunsEnd(steps: seq<Step>, s: State)
    requires Runs(START, steps, s)
    ensures Rank(s.main) <= 9 && (Rank(s.main) == 0 <==> s.main.Returned?)
    ensures !s.main.Returned? ==> Enabled(s, Ahead(s)) && Rank(Next(s, Ahead(s)).main) < Rank(s.main)
    ensures forall step :: Enabled(s, step) ==> Rank(Next(s, step).main) <= Rank(s.main)
  {
    InvRun(START, steps, s);
    UnfinishedRun(START, steps, s);
    hide Inv, Runs, Next, Ahead, Enabled;
    if !s.main.Returned? {
      BufferedProgress(s);
    }
    forall step | Enabled(s, step) ensures Rank(Next(s, step).main) <= Rank(s.main) {
      RankNeverGrows(s, step);
    }
  }
}
