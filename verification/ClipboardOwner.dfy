/** The clipboard worker as it runs: fields updated in place, each loop a run of the state machine. */
module ClipboardOwner {
  import opened Results
  import opened Clipboard
  import opened ClipboardAnswers

  /** A step of another client, or none, between two polls. */
  predicate Foreign(step: Step) { step.Take? || step.Ask? || step.Put? || step.Forge? }

  lemma {:induction false} RunsAppend(s: State, steps: seq<Step>, mid: State, step: Step)
    requires Runs(s, steps, mid) && Enabled(mid, step)
    ensures Runs(s, steps + [step], Next(mid, step))
    decreases |steps|
  {
    hide Next, Enabled;
    if steps == [] {
      assert [] + [step] == [step] && [step][1..] == [];
      assert Runs(Next(mid, step), [], Next(mid, step));
    } else {
      RunsAppend(Next(s, steps[0]), steps[1..], mid, step);
      assert (steps + [step])[1..] == steps[1..] + [step];
    }
  }

  /** The worker's text and wait, and the display as its connection sees it. */
  class Owner {
    var text: Option<Text>
    var worker: Worker
    var owner: Option<Window>
    var props: map<Atom, Prop>
    var queue: seq<Event>
    ghost var sets: seq<Text>
    ghost var asked: seq<Atom>
    ghost var answers: seq<Answer>
    ghost var log: seq<Outcome>

    ghost function View(): State
      reads this
    {
      State(owner, props, queue, text, worker, sets, asked, answers, log)
    }

    constructor (owner: Option<Window>)
      ensures View() == Start(owner)
    {
      text, worker, this.owner, props, queue, sets, asked, answers, log := None, Idle, owner, map[], [], [], [], [], [];
    }

    method ServeRequest(requestor: Window, property: Atom, target: Atom)
      modifies this
      ensures View() == Serves(old(View()), requestor, property, target)
      ensures var served := answers[|answers| - 1].served;
              && answers == old(answers) + [Answer(requestor, target, if property == 0 then target else property, served, |sets|)]
              && (served.Some? <==> text.Some? && (target == TARGETS || target == UTF8_STRING || target == STRING))
              && (served.Some? ==> Carries(served.value, target, text.value))
      ensures text == old(text) && worker == old(worker) && owner == old(owner) && log == old(log)
    {
      var prop := ReplyProperty(property, target);
      var served := match (ClassifyTarget(target), text)
        case (ServeTargets, Some(_)) => Some(TargetsList())
        case (ServeUtf8, Some(t)) => Some(Prop(UTF8_STRING, t))
        case (ServeLatin1, Some(t)) => Some(Prop(STRING, t))
        case _ => None;
      answers := answers + [Answer(requestor, target, prop, served, |sets|)];
      if requestor == Ours {
        if served.Some? {
          props := props[prop := served.value];
        }
        queue := queue + [Notify(Ours, CLIPBOARD, if served.Some? then prop else 0)];
      }
    }

    method ConvertTo(target: Atom)
      modifies this
      ensures View() == Convert(old(View()), target)
      ensures SHINKEND_CLIP !in props && asked == old(asked) + [target]
      ensures owner == Some(Ours) ==> queue == old(queue) + [Request(Ours, SHINKEND_CLIP, target)]
    {
      props, asked := props - {SHINKEND_CLIP}, asked + [target];
      match owner {
        case None => queue := queue + [Notify(Ours, CLIPBOARD, 0)];
        case Some(Ours) => queue := queue + [Request(Ours, SHINKEND_CLIP, target)];
        case Some(Theirs(_)) =>
      }
    }

    /** `read_property`, ending the `get`. */
    method Read(property: Atom) returns (r: Outcome)
      requires worker.Getting?
      modifies this
      ensures View() == ReadProperty(old(View()), property, old(worker.stale))
      ensures log == old(log) + [r] && worker.Idle? && r != TimedOut
      ensures property !in old(props) ==> r == Got([], old(worker.stale)) && props == old(props)
      ensures property in old(props) ==>
                var p := old(props[property]);
                if p.kind == INCR then r == TooLarge && property !in props
                else if |p.value| > 1024 * 1024 then r == TooLarge && props == old(props)
                else r == Got(p.value, old(worker.stale)) && property !in props
      ensures forall other :: other != property ==>
                (other in props <==> other in old(props)) && (other in props ==> props[other] == old(props)[other])
    {
      if property !in props {
        r := Got([], worker.stale);
      } else if props[property].kind == INCR {
        r := TooLarge;
        props := props - {property};
      } else if |props[property].value| > MAX_CLIPBOARD_BYTES {
        r := TooLarge;
      } else {
        r := Got(props[property].value, worker.stale);
        props := props - {property};
      }
      log := log + [r];
      worker := Idle;
    }

    /** `handle`: serve a request, note a takeover, hand a notification to the caller. */
    method OnEvent() returns (n: Option<Event>)
      requires queue != []
      modifies this
      ensures n.Some? ==> n == Some(old(queue[0])) && n.value.Notify? && View() == old(View()).(queue := old(queue[1..]))
      ensures n.None? ==> !old(queue[0]).Notify? && View() == Handle(old(View()).(queue := old(queue[1..])), old(queue[0]))
    {
      var e := queue[0];
      queue := queue[1..];
      n := None;
      match e {
        case Request(requestor, property, target) => ServeRequest(requestor, property, target);
        case Clear(selection) =>
          if selection == CLIPBOARD {
            text := None;
          }
        case Notify(_, _, _) => n := Some(e);
        case Other =>
      }
    }

    /** `pump`: drain the events, serving requests; notifications are dropped. */
    method Pump() returns (ghost steps: seq<Step>)
      requires worker.Idle?
      modifies this
      ensures Runs(old(View()), steps, View()) && worker.Idle? && queue == []
      ensures forall i :: 0 <= i < |steps| ==> steps[i] == Poll
    {
      steps := [];
      while queue != []
        invariant worker.Idle? && Runs(old(View()), steps, View())
        invariant forall i :: 0 <= i < |steps| ==> steps[i] == Poll
        decreases Work(queue)
      {
        ghost var before := View();
        WorkNext(queue);
        var n := OnEvent();
        assert View() == Next(before, Poll);
        RunsAppend(old(View()), steps, before, Poll);
        hide Next, Runs, Handle;
        steps := steps + [Poll];
      }
    }

    /**
     `set`: refuse what is too large; take the selection, then check that we own it; another client may
     act in between.
     */
    method Set(text: Text, other: Option<Step>) returns (ok: bool, ghost steps: seq<Step>)
      requires worker.Idle? && (other.Some? ==> Foreign(other.value))
      modifies this
      ensures Runs(old(View()), steps, View()) && steps == SetSteps(text, other) && worker.Idle?
      ensures log == old(log) + [if |text| > MAX_CLIPBOARD_BYTES then SetTooLarge else SetDone(text, ok)]
      ensures |text| > MAX_CLIPBOARD_BYTES ==> !ok && View() == old(View()).(log := log)
      ensures |text| <= MAX_CLIPBOARD_BYTES ==> this.text == Some(text) && (ok <==> owner == Some(Ours))
    {
      ghost var start := View();
      assert Runs(start, [], start);
      RunsAppend(start, [], start, SetCmd(text));
      steps := [] + [SetCmd(text)];
      if |text| > MAX_CLIPBOARD_BYTES {
        ok, log := false, log + [SetTooLarge];
        return;
      }
      this.text := Some(text);
      owner, worker, sets := Some(Ours), Claiming, sets + [text];
      ghost var claimed := View();
      Others(other);
      if other.Some? {
        RunsAppend(start, steps, claimed, other.value);
        steps := steps + [other.value];
      }
      claimed := View();
      ok := owner == Some(Ours);
      worker, log := Idle, log + [SetDone(text, ok)];
      RunsAppend(start, steps, claimed, Claimed);
      steps := steps + [Claimed];
    }

    /** Another client's step, as the display performs it. */
    method Others(other: Option<Step>)
      requires other.Some? ==> Foreign(other.value)
      modifies this
      ensures View() == if other.Some? then Next(old(View()), other.value) else old(View())
    {
      match other {
        case Some(Take(id)) =>
          if owner == Some(Ours) {
            queue := queue + [Clear(CLIPBOARD)];
          }
          owner := if id.Some? then Some(Theirs(id.value)) else None;
        case Some(Ask(id, property, target)) =>
          if owner == Some(Ours) {
            queue := queue + [Request(Theirs(id), property, target)];
          }
        case Some(Put(property, prop)) => props := props[property := prop];
        case Some(Forge(e)) => queue := queue + [e];
        case None =>
      }
    }

    /** One event while `get` waits: its result, once it has one. */
    method Wait() returns (r: Option<Outcome>)
      requires worker.Getting? && queue != []
      modifies this
      ensures View() == Next(old(View()), Poll)
      ensures if r.Some? then worker.Idle? && log == old(log) + [r.value] else worker.Getting? && log == old(log)
      ensures r != Some(TimedOut)
    {
      r := None;
      var n := OnEvent();
      if n.Some? && n.value.requestor == Ours && n.value.selection == CLIPBOARD {
        match OnNotify(worker.triedString, n.value.property) {
          case Fetch(property) =>
            var read := Read(property);
            r := Some(read);
          case RetryString =>
            worker := worker.(triedString := true);
            ConvertTo(STRING);
          case GiveUp =>
            worker, log := Idle, log + [NoText];
            r := Some(NoText);
        }
      }
    }

    /**
     `get`: convert, then poll until answered, serving our own requests while waiting. One step of the
     others may come before each poll; when they run out, the deadline has passed. While we own the
     selection or nobody does, two rounds for every event queued or added, and four more, are enough.
     */
    method Get(others: seq<Option<Step>>) returns (r: Outcome, ghost steps: seq<Step>)
      requires worker.Idle? && forall i :: 0 <= i < |others| && others[i].Some? ==> Foreign(others[i].value)
      modifies this
      ensures Runs(old(View()), steps, View()) && GetSteps(steps, others, r) && worker.Idle?
      ensures log == old(log) + [r]
      ensures (old(owner).None? || old(owner) == Some(Ours)) && NoTake(others) ==>
                |others| >= 2 * |old(queue)| + 2 * Busy(others) + 4 ==> r != TimedOut
    {
      ghost var start, ours := View(), owner.None? || owner == Some(Ours);
      assert Runs(start, [], start);
      RunsAppend(start, [], start, GetCmd);
      if ours {
        GetStarts(View());
      }
      worker := Getting(false, StartsStale(queue));
      ConvertTo(UTF8_STRING);
      steps := [] + [GetCmd];
      ghost var work := Left(View());
      for i := 0 to |others|
        invariant worker.Getting? && log == old(log) && Runs(start, steps, View()) && Waits(steps, others)
        invariant ours && NoTake(others) ==> Answerable(View()) && Left(View()) + i <= work + 2 * Busy(others[..i])
      {
        hide Next, Runs, Waits, Left, Busy, Answerable;
        BusyNext(others, i);
        var done;
        done, steps := Round(others, i, start, steps);
        if done.Some? {
          return done.value, steps;
        }
      }
      RunsAppend(start, steps, View(), TimeOut);
      assert others[..|others|] == others && (Answerable(View()) ==> Left(View()) > 0);
      hide Waits;
      steps := steps + [TimeOut];
      r := TimedOut;
      worker, log := Idle, log + [r];
    }

    /** One round of the wait: another client's step, if there is one, and a poll, if there is an event. */
    method Round(others: seq<Option<Step>>, i: nat, ghost start: State, ghost before: seq<Step>)
      returns (r: Option<Outcome>, ghost steps: seq<Step>)
      requires i < |others| && (others[i].Some? ==> Foreign(others[i].value))
      requires worker.Getting? && Runs(start, before, View()) && Waits(before, others)
      modifies this
      ensures Runs(start, steps, View()) && Waits(steps, others) && r != Some(TimedOut)
      ensures if r.Some? then worker.Idle? && log == old(log) + [r.value] else worker.Getting? && log == old(log)
      ensures Answerable(old(View())) && r.None? && !(others[i].Some? && others[i].value.Take?) ==>
                Answerable(View()) && Left(View()) < Left(old(View())) + if others[i].Some? then 2 else 0
    {
      r, steps := None, before;
      ghost var was := View();
      Others(others[i]);
      assert others[i].Some? ==> KeepsGet(was, others[i].value);
      if others[i].Some? && !others[i].value.Take? {
        OthersAdd(was, others[i].value);
      }
      hide Next, Runs, Waits, Left, Answerable;
      if others[i].Some? {
        RunsAppend(start, steps, was, others[i].value);
        WaitsOn(steps, others, others[i].value);
        steps := steps + [others[i].value];
      }
      if queue != [] {
        RunsAppend(start, steps, View(), Poll);
        WaitsOn(steps, others, Poll);
        steps := steps + [Poll];
        if Answerable(View()) {
          PollLeaves(View());
        }
        r := Wait();
      }
    }

    /**
     A `set` and then a `get` of a settled worker, with calm clients: the `get` reads the text exactly when
     no takeover was queued, and nothing otherwise; it times out only without rounds enough to get there.
     */
    method SetThenGet(text: Text, others: seq<Option<Step>>) returns (r: Outcome)
      requires Settled(View()) && |text| <= MAX_CLIPBOARD_BYTES
      requires forall i :: 0 <= i < |others| && others[i].Some? ==> Foreign(others[i].value) && Calm(others[i].value)
      modifies this
      ensures r == TimedOut || r == if NoClear(old(queue)) then Got(text, false) else NoText
      ensures |others| >= 2 * |old(queue)| + 2 * Busy(others) + 4 ==> r != TimedOut
    {
      ghost var start := View();
      ghost var steps, k;
      var ok;
      ok, steps := Set(text, None);
      RunsTwo(start, SetCmd(text), Claimed, View());
      k := |log|;
      assert queue == old(queue) && owner == Some(Ours) && NoTake(others);
      r, steps := Get(others);
      hide Runs, Next, Settled, GetSteps;
      if r != TimedOut {
        CalmGet(steps, others, r);
        SetSurvivesIff(start, text, steps, View(), k);
      }
    }
  }

  // ---- why a `get` of our own selection, or of none, is answered ----

  /** An event of our own conversion is queued, and its request, if refused, will come back to us. */
  predicate Answerable(s: State) {
    s.worker.Getting? && OwnEvents(s.queue) != [] && (s.owner.None? || s.owner == Some(Ours))
  }

  /** What is left to do: the queued events, and a retry. */
  function Left(s: State): nat {
    Work(s.queue) + if s.worker.Getting? && !s.worker.triedString then 2 else 0
  }

  predicate NoTake(others: seq<Option<Step>>) {
    forall i :: 0 <= i < |others| && others[i].Some? ==> !others[i].value.Take?
  }

  /** How many steps the other clients take. */
  function Busy(others: seq<Option<Step>>): nat {
    if others == [] then 0 else Busy(others[..|others| - 1]) + if others[|others| - 1].Some? then 1 else 0
  }

  lemma BusyNext(others: seq<Option<Step>>, i: nat)
    requires i < |others|
    ensures Busy(others[..i + 1]) == Busy(others[..i]) + if others[i].Some? then 1 else 0
  {
    assert others[..i + 1][..i] == others[..i];
  }

  lemma {:induction false} WorkBound(queue: seq<Event>)
    ensures Work(queue) <= 2 * |queue|
  {
    if queue != [] {
      WorkBound(queue[1..]);
    }
  }

  lemma GetStarts(s: State)
    requires Enabled(s, GetCmd) && (s.owner.None? || s.owner == Some(Ours))
    ensures Answerable(Next(s, GetCmd)) && Left(Next(s, GetCmd)) <= 2 * |s.queue| + 4
  {
    var e := if s.owner.None? then Notify(Ours, CLIPBOARD, 0) else Request(Ours, SHINKEND_CLIP, UTF8_STRING);
    OwnAppend(s.queue, e);
    WorkAppend(s.queue, e);
    WorkBound(s.queue);
    hide OwnEvents, Work;
  }

  lemma OthersAdd(s: State, step: Step)
    requires Foreign(step) && !step.Take?
    ensures Left(Next(s, step)) <= Left(s) + 2 && (Answerable(s) ==> Answerable(Next(s, step)))
  {
    var s' := Next(s, step);
    if s'.queue != s.queue {
      var e := s'.queue[|s.queue|];
      assert s'.queue == s.queue + [e];
      OwnAppend(s.queue, e);
      WorkAppend(s.queue, e);
    }
    hide OwnEvents, Work;
  }

  lemma PollLeaves(s: State)
    requires Answerable(s) && Enabled(s, Poll)
    ensures Next(s, Poll).worker.Getting? ==> Answerable(Next(s, Poll)) && Left(Next(s, Poll)) < Left(s)
  {
    var s', rest := Next(s, Poll), s.queue[1..];
    OwnHead(s.queue);
    assert Work(s.queue) == Weight(s.queue[0]) + Work(rest);
    if s'.queue != rest {
      var e := s'.queue[|rest|];
      assert s'.queue == rest + [e];
      OwnAppend(rest, e);
      WorkAppend(rest, e);
    }
    hide OwnEvents, Work;
  }

  /** The steps of a `set`. */
  ghost function SetSteps(text: Text, other: Option<Step>): seq<Step> {
    if |text| > MAX_CLIPBOARD_BYTES then [SetCmd(text)]
    else if other.None? then [SetCmd(text), Claimed]
    else [SetCmd(text), other.value, Claimed]
  }

  /** The steps of a `get` so far: the command, then polls and the others' own steps. */
  ghost predicate Waits(steps: seq<Step>, others: seq<Option<Step>>) {
    steps != [] && steps[0] == GetCmd && forall i :: 1 <= i < |steps| ==> steps[i] == Poll || Some(steps[i]) in others
  }

  /** The steps of a `get` that returned r: a timeout comes last, and only when nothing else was returned. */
  ghost predicate GetSteps(steps: seq<Step>, others: seq<Option<Step>>, r: Outcome) {
    if r == TimedOut then steps != [] && steps[|steps| - 1] == TimeOut && Waits(steps[..|steps| - 1], others)
    else Waits(steps, others)
  }

  lemma WaitsOn(steps: seq<Step>, others: seq<Option<Step>>, step: Step)
    requires Waits(steps, others) && (step == Poll || Some(step) in others)
    ensures Waits(steps + [step], others)
  {
  }

  lemma CalmGet(steps: seq<Step>, others: seq<Option<Step>>, r: Outcome)
    requires GetSteps(steps, others, r) && r != TimedOut
    requires forall i :: 0 <= i < |others| && others[i].Some? ==> Foreign(others[i].value) && Calm(others[i].value)
    ensures forall i :: 0 <= i < |steps| ==> Calm(steps[i]) && !steps[i].TimeOut? && !steps[i].SetCmd?
  {
  }

  lemma RunsTwo(s: State, first: Step, second: Step, s': State)
    requires Runs(s, [first, second], s')
    ensures Enabled(s, first) && Enabled(Next(s, first), second) && s' == Next(Next(s, first), second)
  {
    hide Next, Enabled;
    assert [first, second][1..] == [second] && [second][1..] == [];
    assert Runs(Next(s, first), [second], s');
    assert Runs(Next(Next(s, first), second), [], s');
  }

  /** Another client does not touch the worker. */
  ghost predicate KeepsGet(s: State, other: Step)
    requires Foreign(other)
  {
    Enabled(s, other) && Next(s, other).worker == s.worker && Next(s, other).log == s.log
  }

  /** A request of our own costs one more event to handle than any other event. */
  function Work(queue: seq<Event>): nat {
    if queue == [] then 0 else Weight(queue[0]) + Work(queue[1..])
  }

  function Weight(e: Event): nat { if e.Request? then 2 else 1 }

  lemma {:induction false} WorkAppend(queue: seq<Event>, e: Event)
    ensures Work(queue + [e]) == Work(queue) + Weight(e)
    decreases |queue|
  {
    if queue == [] {
      assert [] + [e] == [e] && [e][1..] == [];
    } else {
      WorkAppend(queue[1..], e);
      assert (queue + [e])[1..] == queue[1..] + [e];
    }
  }

  lemma WorkNext(queue: seq<Event>)
    requires queue != []
    ensures Work(queue[1..]) < Work(queue)
    ensures queue[0].Request? ==> forall e: Event :: e.Notify? ==> Work(queue[1..] + [e]) < Work(queue)
  {
    forall e: Event | e.Notify? ensures Work(queue[1..] + [e]) == Work(queue[1..]) + 1 {
      WorkAppend(queue[1..], e);
    }
  }

  /** A late notification: a `get` times out, its request is served after, and the next `get` reads nothing. */
  lemma {:induction false} LateNotifyReadsNothing() returns (steps: seq<Step>, s: State)
    ensures Runs(Start(None), steps, s) && forall i :: 0 <= i < |steps| ==> Calm(steps[i])
    ensures s.log == [SetDone([65], true), TimedOut, Got([], true)]
  {
    var before, s5 := TimeOutThenServe();
    hide Runs;
    assert StartsStale(s5.queue);
    var s6 := Next(s5, GetCmd);
    s := Next(s6, Poll);
    hide Next;
    RunsAppend(Start(None), before, s5, GetCmd);
    steps := before + [GetCmd];
    RunsAppend(Start(None), steps, s6, Poll);
    steps := steps + [Poll];
  }

  lemma TimeOutThenServe() returns (steps: seq<Step>, s: State)
    ensures Runs(Start(None), steps, s) && forall i :: 0 <= i < |steps| ==> Calm(steps[i])
    ensures s.worker.Idle? && s.owner == Some(Ours) && s.queue == [Notify(Ours, CLIPBOARD, SHINKEND_CLIP)]
    ensures s.log == [SetDone([65], true), TimedOut]
  {
    var s0 := Start(None);
    var s1 := Next(s0, SetCmd([65]));
    var s2 := Next(s1, Claimed);
    var s3 := Next(s2, GetCmd);
    var s4 := Next(s3, TimeOut);
    s := Next(s4, Poll);
    assert Runs(s0, [], s0);
    hide Runs, Next, StartsStale;
    RunsAppend(s0, [], s0, SetCmd([65]));
    steps := [] + [SetCmd([65])];
    RunsAppend(s0, steps, s1, Claimed);
    steps := steps + [Claimed];
    RunsAppend(s0, steps, s2, GetCmd);
    steps := steps + [GetCmd];
    RunsAppend(s0, steps, s3, TimeOut);
    steps := steps + [TimeOut];
    RunsAppend(s0, steps, s4, Poll);
    steps := steps + [Poll];
  }

  /**
   A takeover queued when the next text is set: the second `set` succeeds and nobody acts after it, but
   the `get` that follows finds no text.
   */
  lemma {:induction false} StaleClearLosesText() returns (steps: seq<Step>, s: State)
    ensures Runs(Start(None), steps, s) && |steps| == 11 && forall i :: 5 <= i < |steps| ==> steps[i] in [GetCmd, Poll]
    ensures s.log == [SetDone([65], true), SetDone([66], true), NoText]
  {
    hide *;
    var s5;
    steps, s5 := SetBehindTakeover();
    var s8;
    steps, s8 := AskInVain(Start(None), steps, s5);
    steps, s := RetryInVain(Start(None), steps, s8);
  }

  lemma SetBehindTakeover() returns (steps: seq<Step>, s: State)
    ensures Runs(Start(None), steps, s) && |steps| == 5 && s.worker.Idle?
    ensures s.queue == [Clear(CLIPBOARD)] && s.owner == Some(Ours) && s.log == [SetDone([65], true), SetDone([66], true)]
  {
    var s0 := Start(None);
    var s1 := Next(s0, SetCmd([65]));
    var s2 := Next(s1, Claimed);
    var s3 := Next(s2, Take(Some(1)));
    var s4 := Next(s3, SetCmd([66]));
    s := Next(s4, Claimed);
    assert Runs(s0, [], s0);
    hide Runs;
    RunsAppend(s0, [], s0, SetCmd([65]));
    steps := [] + [SetCmd([65])];
    RunsAppend(s0, steps, s1, Claimed);
    steps := steps + [Claimed];
    RunsAppend(s0, steps, s2, Take(Some(1)));
    steps := steps + [Take(Some(1))];
    RunsAppend(s0, steps, s3, SetCmd([66]));
    steps := steps + [SetCmd([66])];
    RunsAppend(s0, steps, s4, Claimed);
    steps := steps + [Claimed];
  }

  /** The text is dropped, and the request for it refused. */
  lemma AskInVain(s0: State, before: seq<Step>, s: State) returns (steps: seq<Step>, s': State)
    requires Runs(s0, before, s) && s.worker.Idle? && s.queue == [Clear(CLIPBOARD)] && s.owner == Some(Ours)
    ensures Runs(s0, steps, s') && s'.log == s.log && |steps| == |before| + 3
    ensures forall i :: |before| <= i < |steps| ==> steps[i] in [GetCmd, Poll]
    ensures s'.queue == [Notify(Ours, CLIPBOARD, 0)] && s'.owner == Some(Ours) && s'.text == None
    ensures s'.worker.Getting? && !s'.worker.triedString
  {
    var s1 := Next(s, GetCmd);
    var s2 := Next(s1, Poll);
    s' := Next(s2, Poll);
    hide Runs, Next, StartsStale;
    RunsAppend(s0, before, s, GetCmd);
    RunsAppend(s0, before + [GetCmd], s1, Poll);
    RunsAppend(s0, before + [GetCmd] + [Poll], s2, Poll);
    steps := before + [GetCmd] + [Poll] + [Poll];
  }

  /** The retry is refused as well. */
  lemma RetryInVain(s0: State, before: seq<Step>, s: State) returns (steps: seq<Step>, s': State)
    requires Runs(s0, before, s) && s.queue == [Notify(Ours, CLIPBOARD, 0)] && s.owner == Some(Ours) && s.text == None
    requires s.worker.Getting? && !s.worker.triedString
    ensures Runs(s0, steps, s') && s'.log == s.log + [NoText] && steps == before + [Poll] + [Poll] + [Poll]
  {
    var s1 := Next(s, Poll);
    assert s1.queue == [Request(Ours, SHINKEND_CLIP, STRING)];
    var s2 := Next(s1, Poll);
    s' := Next(s2, Poll);
    hide Runs, Next;
    RunsAppend(s0, before, s, Poll);
    RunsAppend(s0, before + [Poll], s1, Poll);
    RunsAppend(s0, before + [Poll] + [Poll], s2, Poll);
    steps := before + [Poll] + [Poll] + [Poll];
  }
}
