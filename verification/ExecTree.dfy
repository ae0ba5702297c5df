/**
 The processes of one exec: a child spawned as the leader of its own process group, its descendants,
 and the two pipes they write to; and the wait with a deadline that reaps the child or kills the group.
 */
module ExecTree {
  import opened Results

  const STREAM_CHUNK := 64 * 1024

  type Byte = b: int | 0 <= b < 256

  datatype Channel = Stdout | Stderr

  /** A live process: whether it is in the group (and was before any kill), and which pipes it can write to. */
  datatype Proc = Proc(inGroup: bool, holds: set<Channel>)

  datatype Status = Status(code: Option<int>, signal: Option<int>)

  const LEADER: nat := 0

  const SIGKILLED := Status(None, Some(9))

  /** Live processes by pid, the leader's status once it is dead, and all that was written to each pipe. */
  datatype Tree = Tree(
    procs: map<nat, Proc>, status: Option<Status>, killed: bool, stdout: seq<Byte>, stderr: seq<Byte>)

  const UNSPAWNED := Tree(map[], None, false, [], [])

  const SPAWNED := Tree(map[LEADER := Proc(true, {Stdout, Stderr})], None, false, [], [])

  function Written(t: Tree, c: Channel): seq<Byte> {
    if c.Stdout? then t.stdout else t.stderr
  }

  /** No live process can write to the pipe: a reader that has read everything sees EOF. */
  ghost predicate Released(t: Tree, c: Channel) {
    forall pid :: pid in t.procs ==> c !in t.procs[pid].holds
  }

  /** No live process is left that was in the group when it was killed. */
  ghost predicate GroupGone(t: Tree) {
    forall pid :: pid in t.procs ==> !t.procs[pid].inGroup
  }

  // ---- what the processes do ----

  datatype Act =
    | Write(pid: nat, channel: Channel, data: seq<Byte>)
    | Fork(pid: nat, child: nat)
    | LeaveGroup(pid: nat)
    | JoinGroup(pid: nat)
    | Close(pid: nat, channel: Channel)
    | Pass(pid: nat, to: nat, channel: Channel)
    | Exit(pid: nat, status: Status)

  /** Pids are not reused. */
  ghost predicate CanAct(t: Tree, a: Act) {
    && a.pid in t.procs
    && match a
       case Write(pid, c, _) => c in t.procs[pid].holds
       case Fork(_, child) => child !in t.procs && child != LEADER
       case Pass(pid, to, c) => to in t.procs && c in t.procs[pid].holds
       case _ => true
  }

  ghost function Acted(t: Tree, a: Act): Tree
    requires CanAct(t, a)
  {
    var p := t.procs[a.pid];
    match a
    case Write(_, c, data) => if c.Stdout? then t.(stdout := t.stdout + data) else t.(stderr := t.stderr + data)
    case Fork(_, child) => t.(procs := t.procs[child := p])
    case LeaveGroup(pid) => t.(procs := t.procs[pid := p.(inGroup := false)])
    case JoinGroup(pid) => if t.killed then t else t.(procs := t.procs[pid := p.(inGroup := true)])
    case Close(pid, c) => t.(procs := t.procs[pid := p.(holds := p.holds - {c})])
    case Pass(_, to, c) => t.(procs := t.procs[to := t.procs[to].(holds := t.procs[to].holds + {c})])
    case Exit(pid, status) => t.(procs := t.procs - {pid}, status := if pid == LEADER then Some(status) else t.status)
  }

  /** `kill_tree`: SIGKILL to the whole group and to the direct child. */
  function KillTree(t: Tree): Tree {
    t.(procs := map pid | pid in t.procs && !t.procs[pid].inGroup && pid != LEADER :: t.procs[pid],
       status := if t.status.None? then Some(SIGKILLED) else t.status,
       killed := true)
  }

  /** A dead leader is gone; once the group has been killed it stays empty. */
  ghost predicate TreeInv(t: Tree) {
    && (t.status.Some? ==> LEADER !in t.procs)
    && (t.killed ==> t.status.Some? && GroupGone(t))
  }

  /** `t'` is a later tree than `t`: output only grows, and not after the pipe was released. */
  ghost predicate Later(t: Tree, t': Tree) {
    && (t.status.Some? ==> t'.status == t.status)
    && (t.killed ==> t'.killed)
    && forall c :: Written(t, c) <= Written(t', c)
                   && (Released(t, c) ==> Released(t', c) && Written(t', c) == Written(t, c))
  }

  lemma ActedKeeps(t: Tree, a: Act)
    requires TreeInv(t) && CanAct(t, a)
    ensures TreeInv(Acted(t, a)) && Later(t, Acted(t, a)) && Acted(t, a).killed == t.killed
  {
    hide TreeInv, Later;
    ActedTree(t, a);
    forall c ensures Written(t, c) <= Written(Acted(t, a), c) {}
    forall c | Released(t, c) ensures Released(Acted(t, a), c) && Written(Acted(t, a), c) == Written(t, c) {
      ActedReleased(t, a, c);
    }
    LaterFrom(t, Acted(t, a));
  }

  lemma LaterFrom(t: Tree, t': Tree)
    requires t.status.Some? ==> t'.status == t.status
    requires t.killed ==> t'.killed
    requires forall c :: Written(t, c) <= Written(t', c)
    requires forall c :: Released(t, c) ==> Released(t', c) && Written(t', c) == Written(t, c)
    ensures Later(t, t')
  {
  }

  lemma ActedTree(t: Tree, a: Act)
    requires TreeInv(t) && CanAct(t, a)
    ensures TreeInv(Acted(t, a)) && Acted(t, a).killed == t.killed
    ensures t.status.Some? ==> Acted(t, a).status == t.status
  {
  }

  lemma ActedReleased(t: Tree, a: Act, c: Channel)
    requires CanAct(t, a) && Released(t, c)
    ensures Released(Acted(t, a), c) && Written(Acted(t, a), c) == Written(t, c)
  {
  }

  lemma KillKeeps(t: Tree)
    requires TreeInv(t)
    ensures TreeInv(KillTree(t)) && Later(t, KillTree(t)) && KillTree(t).killed && GroupGone(KillTree(t))
  {
  }

  /** The kill touches nobody else: a process outside the group lives on, pipes and all, and no status is replaced. */
  lemma KillSpares(t: Tree)
    ensures forall pid :: pid in KillTree(t).procs <==> pid in t.procs && !t.procs[pid].inGroup && pid != LEADER
    ensures forall pid :: pid in KillTree(t).procs ==> KillTree(t).procs[pid] == t.procs[pid]
    ensures t.status.Some? ==> KillTree(t).status == t.status
    ensures t.status.None? ==> KillTree(t).status == Some(Status(None, Some(9)))
    ensures KillTree(t).stdout == t.stdout && KillTree(t).stderr == t.stderr
  {
  }

  // ---- wait_with_deadline ----

  datatype Waited = Exited(status: Status, timedOut: bool) | WaitError

  /** What the wire reports as the exit code: none for a run that timed out. */
  function ExitCode(w: Waited): Option<int>
    requires w.Exited?
  {
    if w.timedOut then None else w.status.code
  }

  datatype Wait = Waiting | Trying | Killing | Reaping | Over(result: Waited)

  datatype WaitStep = Reap | Deadline | StillRunning | Kill | Fail

  predicate CanWait(t: Tree, w: Wait, step: WaitStep) {
    match step
    case Reap => (w.Waiting? || w.Trying? || w.Reaping?) && t.status.Some?
    case Deadline => w.Waiting?
    case StillRunning => w.Trying? && t.status.None?
    case Kill => w.Killing?
    case Fail => w.Waiting? || w.Trying? || w.Reaping?
  }

  function WaitNext(t: Tree, w: Wait, step: WaitStep): Wait
    requires CanWait(t, w, step)
  {
    match step
    case Reap => Over(Exited(t.status.value, w.Reaping?))
    case Deadline => Trying
    case StillRunning => Killing
    case Kill => Reaping
    case Fail => Over(WaitError)
  }

  function WaitTree(t: Tree, step: WaitStep): Tree {
    if step.Kill? then KillTree(t) else t
  }

  /** A reported status is the leader's own, and a timed-out run has been killed. */
  ghost predicate WaitInv(t: Tree, w: Wait) {
    match w
    case Over(Exited(status, timedOut)) => t.status == Some(status) && (timedOut ==> t.killed)
    case Reaping => t.killed
    case _ => true
  }

  lemma WaitKeeps(t: Tree, w: Wait, step: WaitStep)
    requires TreeInv(t) && WaitInv(t, w) && CanWait(t, w, step)
    ensures var t' := WaitTree(t, step); TreeInv(t') && WaitInv(t', WaitNext(t, w, step)) && Later(t, t')
  {
    KillKeeps(t);
    hide GroupGone;
  }

  /**
   The race at the deadline: a child found dead has ended by itself, with its own status; only one found
   alive is killed; and a wait that is over never killed a child without saying so.
   */
  lemma NaturalExitWins(t: Tree, w: Wait, step: WaitStep)
    requires TreeInv(t) && WaitInv(t, w) && CanWait(t, w, step)
    ensures t.status.Some? && (w.Waiting? || w.Trying?) && step.Reap? ==>
              WaitNext(t, w, step) == Over(Exited(t.status.value, false))
    ensures WaitNext(t, w, step).Killing? ==> t.status.None? && w.Trying?
    ensures WaitTree(t, step) != t ==> w.Killing? && WaitNext(t, w, step) == Reaping
    ensures w.Reaping? && step.Reap? ==> WaitNext(t, w, step) == Over(Exited(t.status.value, true))
  {
  }

  lemma WaitStays(t: Tree, w: Wait, t': Tree)
    requires WaitInv(t, w) && Later(t, t')
    ensures WaitInv(t', w)
  {
  }

  /** How far a wait is from its end. */
  function WaitRank(w: Wait): nat {
    match w case Waiting => 4 case Trying => 3 case Killing => 2 case Reaping => 1 case Over(_) => 0
  }

  /** A step other than a failing wait that an unfinished wait can take, once the deadline timer can fire. */
  function WaitAhead(t: Tree, w: Wait): WaitStep
    requires !w.Over?
  {
    match w
    case Waiting => Deadline
    case Trying => if t.status.Some? then Reap else StillRunning
    case Killing => Kill
    case Reaping => Reap
  }

  lemma WaitProgress(t: Tree, w: Wait)
    requires TreeInv(t) && WaitInv(t, w) && !w.Over?
    ensures CanWait(t, w, WaitAhead(t, w))
  {
  }
}
