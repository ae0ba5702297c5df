/** When the exit message of a streamed exec can be believed. */
module ExecStreamTrust {
  import opened Results
  import opened Sequences
  import opened ExecTree
  import opened ExecStream
  import opened ExecStreamRuns

  // ---- which messages can be believed ----

  /** Every run that ends with this exit delivered both channels whole. */
  ghost predicate Trustworthy(exit: Msg) {
    forall queued, open, steps, s ::
      Runs(Start(queued, open), steps, s) && EndsWith(s, exit) ==> Whole(s, Stdout) && Whole(s, Stderr)
  }

  /** An untruncated exit can be believed unless it reports a failed wait, which hides what was cut. */
  lemma TrustworthyIff(exit: Msg)
    requires exit.ExitMsg? && !exit.truncated
    ensures Trustworthy(exit) <==> exit != WAIT_FAILED
  {
    if exit == WAIT_FAILED {
      var steps, s := LostOutput();
      hide Runs;
      assert !Whole(s, Stdout);
    } else {
      hide Runs, Whole;
      forall queued, open, steps, s | Runs(Start(queued, open), steps, s) && EndsWith(s, exit)
        ensures Whole(s, Stdout) && Whole(s, Stderr)
      {
        ExitMeans(queued, open, steps, s, exit);
      }
    }
  }

  /** A run that loses the child's one byte and still says it is not truncated. */
  lemma LostOutput() returns (steps: seq<Step>, s: State)
    ensures Runs(Start(0, true), steps, s) && EndsWith(s, WAIT_FAILED)
    ensures Payload(s.wire, Stdout) == [] && s.tree.stdout == [65]
  {
    hide *;
    var s2, first := LostWait();
    var s4, middle := LostDrain(s2);
    var last: seq<Step>;
    s, last := LostExit(s4);
    NoPayload();
    RunsConcat(s2, middle, s4, last, s);
    RunsConcat(Start(0, true), first, s2, middle + last, s);
    steps := first + (middle + last);
  }

  lemma LostDrain(s: State) returns (s': State, steps: seq<Step>)
    requires s.main == Awaiting(Waiting)
    ensures Runs(s, steps, s')
    ensures s' == s.(main := Stopping(WaitError, false, true), relay := s.relay.(cancel := true))
  {
    var s1 := Next(s, Await(Fail));
    s' := Next(s1, Grace);
    assert Runs(s', [], s');
    hide Runs, KillTree;
    RunsCons(s1, Grace, [], s');
    RunsCons(s, Await(Fail), [Grace] + [], s');
    steps := [Await(Fail)] + ([Grace] + []);
  }

  lemma NoPayload()
    ensures Payload([] + [WAIT_FAILED], Stdout) == []
  {
    assert ([] + [WAIT_FAILED])[..0] == [];
  }

  lemma LostWait() returns (s: State, steps: seq<Step>)
    ensures Runs(Start(0, true), steps, s)
    ensures s == State(Awaiting(Waiting), SPAWNED.(stdout := [65]), Reader(0, Reading), Reader(0, Reading), [],
                       IDLE.(phase := AwaitRecv), [], 0, true)
  {
    var write := Env(Write(LEADER, Stdout, [65]));
    var s1 := Next(Start(0, true), Spawn);
    s := Next(s1, write);
    assert Runs(s, [], s);
    hide Runs;
    RunsCons(s1, write, [], s);
    RunsCons(Start(0, true), Spawn, [write] + [], s);
    steps := [Spawn] + ([write] + []);
  }

  lemma LostExit(s: State) returns (s': State, steps: seq<Step>)
    requires s.main == Stopping(WaitError, false, true) && s.open && s.queued == 0
    ensures Runs(s, steps, s') && s'.wire == s.wire + [WAIT_FAILED] && EndsWith(s', WAIT_FAILED) && s'.tree.stdout == s.tree.stdout
  {
    var s1 := Next(s, StopKill);
    assert s1 == s.(main := StopWait(WaitError, false, true), tree := KillTree(s.tree));
    hide Runs, KillTree, Next;
    var rest;
    s', rest := LostSend(s1);
    RunsCons(s, StopKill, rest, s');
    steps := [StopKill] + rest;
  }

  lemma LostSend(s: State) returns (s': State, steps: seq<Step>)
    requires s.main == StopWait(WaitError, false, true) && s.tree.status.Some? && s.open && s.queued == 0
    ensures Runs(s, steps, s') && s'.wire == s.wire + [WAIT_FAILED] && EndsWith(s', WAIT_FAILED) && s'.tree == s.tree
  {
    var s1 := Next(s, Stopped);
    s' := Next(s1, ExitSent);
    assert Runs(s', [], s');
    hide Runs;
    RunsCons(s1, ExitSent, [], s');
    RunsCons(s, Stopped, [ExitSent] + [], s');
    steps := [Stopped] + ([ExitSent] + []);
  }

  lemma RunsCons(s: State, step: Step, rest: seq<Step>, s': State)
    requires Enabled(s, step) && Runs(Next(s, step), rest, s')
    ensures Runs(s, [step] + rest, s')
  {
    hide Enabled, Next;
    assert ([step] + rest)[1..] == rest;
  }

  lemma {:induction false} RunsConcat(s: State, first: seq<Step>, mid: State, rest: seq<Step>, s': State)
    requires Runs(s, first, mid) && Runs(mid, rest, s')
    ensures Runs(s, first + rest, s')
    decreases |first|
  {
    hide Enabled, Next;
    if first == [] {
      Empty(rest);
    } else {
      RunsConcat(Next(s, first[0]), first[1..], mid, rest, s');
      assert (first + rest)[1..] == first[1..] + rest;
    }
  }

  // ---- which runs can be believed ----

  /** Once an exit was sent the forwarder has not lost the client. */
  ghost predicate SentInv(s: State) {
    ExitOn(s.wire, s.relay.seqNo).Some? ==> !s.relay.gone
  }

  /** No failed wait is on its way to the client. */
  ghost predicate FailFree(main: Main, exit: Option<Msg>) {
    match main
    case Awaiting(w) => w.Over? ==> w.result.Exited?
    case Draining(w) => w.Exited?
    case Stopping(w, _, _) => w.Exited?
    case StopWait(w, _, _) => w.Exited?
    case Exiting(msg) => msg != WAIT_FAILED
    case _ => exit != Some(WAIT_FAILED)
  }

  lemma TrustMainStep(s: State, step: Step)
    requires SentInv(s) && Enabled(s, step) && OfMain(step) && (s.relay.gone ==> !s.open)
    requires |s.wire| == s.relay.seqNo || s.main.Finished?
    ensures SentInv(Next(s, step)) && (Next(s, step).relay.cancel ==> s.relay.cancel || step.Grace?)
    ensures FailFree(s.main, ExitOn(s.wire, s.relay.seqNo)) && step != Await(Fail) ==>
              FailFree(Next(s, step).main, ExitOn(Next(s, step).wire, Next(s, step).relay.seqNo))
  {
    hide Released, Eof, Written, KillTree;
  }

  lemma LostIsClosed(s: State)
    requires Inv(s)
    ensures s.relay.gone ==> !s.open
  {
  }

  lemma TrustStep(s: State, step: Step)
    requires Inv(s) && SentInv(s) && Enabled(s, step)
    ensures SentInv(Next(s, step)) && (Next(s, step).relay.cancel ==> s.relay.cancel || step.Grace?)
    ensures FailFree(s.main, ExitOn(s.wire, s.relay.seqNo)) && step != Await(Fail) ==>
              FailFree(Next(s, step).main, ExitOn(Next(s, step).wire, Next(s, step).relay.seqNo))
  {
    KillFacts(s);
    LostIsClosed(s);
    hide Inv, Next, Enabled, FailFree;
    if OfMain(step) {
      TrustMainStep(s, step);
    } else {
      hide OfMain;
      OthersKeep(s, step);
    }
  }

  lemma {:induction false} TrustRun(s: State, steps: seq<Step>, s': State)
    requires Inv(s) && SentInv(s) && Runs(s, steps, s')
    ensures SentInv(s') && (s'.relay.cancel ==> s.relay.cancel || Grace in steps)
    ensures FailFree(s.main, ExitOn(s.wire, s.relay.seqNo)) && Await(Fail) !in steps ==>
              FailFree(s'.main, ExitOn(s'.wire, s'.relay.seqNo))
    decreases |steps|
  {
    hide Inv, SentInv, FailFree, Next;
    if steps != [] {
      InvStep(s, steps[0]);
      TrustStep(s, steps[0]);
      TrustRun(Next(s, steps[0]), steps[1..], s');
    }
  }

  lemma TrustFrom(queued: nat, open: bool, steps: seq<Step>, s: State, exit: Msg)
    requires Runs(Start(queued, open), steps, s) && EndsWith(s, exit)
    ensures Inv(s) && s.main.Finished? && !s.relay.gone && (s.relay.cancel ==> Grace in steps)
    ensures Await(Fail) !in steps ==> exit != WAIT_FAILED
  {
    StartInv(queued, open);
    InvRun(Start(queued, open), steps, s);
    TrustRun(Start(queued, open), steps, s);
    ExitIsFinished(s, exit);
    hide Inv, Runs;
  }

  /** In a run in which no wait fails, an untruncated exit means that both channels were delivered whole. */
  lemma UntruncatedIsWhole(queued: nat, open: bool, steps: seq<Step>, s: State, exit: Msg)
    requires Runs(Start(queued, open), steps, s) && EndsWith(s, exit) && !exit.truncated && Await(Fail) !in steps
    ensures Whole(s, Stdout) && Whole(s, Stderr)
  {
    TrustFrom(queued, open, steps, s, exit);
    ExitMeans(queued, open, steps, s, exit);
  }

  /**
   Whatever the exit says, also of a failed wait: if the drain was not given up, both channels were
   delivered whole exactly when the output kept within the budget.
   */
  lemma WholeIffWithinBudget(queued: nat, open: bool, steps: seq<Step>, s: State, exit: Msg)
    requires Runs(Start(queued, open), steps, s) && EndsWith(s, exit) && Grace !in steps
    ensures Whole(s, Stdout) && Whole(s, Stderr) <==> |s.tree.stdout| + |s.tree.stderr| <= STREAM_BUDGET
  {
    TrustFrom(queued, open, steps, s, exit);
    hide Runs, EndsWith;
    FinishedWhole(s);
  }

  lemma FinishedWhole(s: State)
    requires Inv(s) && s.main.Finished? && !s.relay.gone && !s.relay.cancel
    ensures Whole(s, Stdout) && Whole(s, Stderr) <==> |s.tree.stdout| + |s.tree.stderr| <= STREAM_BUDGET
  {
    KillFacts(s);
    PayloadWithinBudget(s);
    PayloadIsPrefix(s, Stdout);
    PayloadIsPrefix(s, Stderr);
    TotalIsSum(s.relay.taken);
    assert RelayInv(s.relay);
    if s.relay.truncated {
      hide Inv, Of, Payload, Total;
    } else {
      hide Of, Payload, Total;
      UncutIsWhole(s, Stdout);
      UncutIsWhole(s, Stderr);
    }
  }
}
