/** What other clients get from the worker, and what it gets from them. */
module ClipboardAnswers {
  import opened Results
  import opened Sequences
  import opened Clipboard

  // ---- one request ----

  /** A request, with the property its answer goes to. */
  function Resolved(e: Event): Event {
    if e.Request? && e.property == 0 then Request(e.requestor, e.target, e.target) else e
  }

  /**
   Whoever asks, a text that is held is served for the three targets and for no other, under the
   property asked for or, when none is named, one named after the target. Our own window sees the
   property written and the notification that says so.
   */
  lemma RequestIsAnswered(s: State, requestor: Window, property: Atom, target: Atom)
    requires s.queue != [] && s.queue[0] == Request(requestor, property, target)
    requires Enabled(s, Poll)
    ensures var s', a := Next(s, Poll), Next(s, Poll).answers;
            && |a| == |s.answers| + 1 && a[..|s.answers|] == s.answers
            && var last := a[|s.answers|];
               && last.to == requestor && last.target == target && last.sets == |s.sets|
               && last.property == (if property == 0 then target else property)
               && (last.served.Some? <==>
                     s.text.Some? && (target == TARGETS || target == UTF8_STRING || target == STRING))
               && (last.served.Some? ==> Carries(last.served.value, target, s.text.value))
               && (requestor == Ours ==>
                     && s'.queue == s.queue[1..] + [Notify(Ours, CLIPBOARD, if last.served.Some? then last.property else 0)]
                     && s'.props == if last.served.Some? then s.props[last.property := last.served.value] else s.props)
               && (requestor != Ours ==> s'.queue == s.queue[1..] && s'.props == s.props)
               && s'.text == s.text && s'.worker == s.worker && s'.log == s.log && s'.owner == s.owner
  {
  }

  // ---- every request, in every calm run after a set ----

  ghost predicate AllServed(answers: seq<Answer>, sets: seq<Text>, from: nat) {
    forall i :: from <= i < |answers| ==> ServedNow(answers[i], sets)
  }

  ghost predicate ServedNow(a: Answer, sets: seq<Text>) {
    && 0 < a.sets <= |sets|
    && (a.served.Some? <==> Offered(a.target))
    && (a.served.Some? ==> Carries(a.served.value, a.target, sets[a.sets - 1]))
  }

  /** The worker owns the selection, no takeover is queued, and the text it holds is the last one set. */
  ghost predicate HoldInv(s: State, from: nat) {
    && s.owner == Some(Ours) && NoClear(s.queue) && from <= |s.answers|
    && s.sets != [] && s.text == Some(s.sets[|s.sets| - 1])
    && AllServed(s.answers, s.sets, from)
  }

  lemma HoldPoll(s: State, from: nat)
    requires HoldInv(s, from) && Enabled(s, Poll)
    ensures HoldInv(Next(s, Poll), from)
  {
    assert s.queue[0] != Clear(CLIPBOARD);
  }

  lemma HoldStep(s: State, step: Step, from: nat)
    requires HoldInv(s, from) && Enabled(s, step) && Calm(step)
    ensures HoldInv(Next(s, step), from)
  {
    if step.Poll? {
      HoldPoll(s, from);
    } else {
      hide OwnEvents, Carries, Offered;
      assert forall a: Answer, t :: ServedNow(a, s.sets) ==> ServedNow(a, s.sets + [t]);
    }
  }

  lemma {:induction false} HoldRun(s: State, steps: seq<Step>, s': State, from: nat)
    requires HoldInv(s, from) && Runs(s, steps, s') && forall i :: 0 <= i < |steps| ==> Calm(steps[i])
    ensures HoldInv(s', from)
    decreases |steps|
  {
    hide HoldInv;
    if steps != [] {
      HoldStep(s, steps[0], from);
      hide Next;
      HoldRun(Next(s, steps[0]), steps[1..], s', from);
    }
  }

  /**
   After a `set` with no takeover queued, whatever interleaving follows with nobody taking the selection,
   every answer to every client serves the text that was the latest set, for the three targets, and
   refuses any other target.
   */
  lemma EveryPasteIsServed(s: State, text: Text, steps: seq<Step>, s': State, k: nat)
    requires s.worker.Idle? && NoClear(s.queue) && |text| <= MAX_CLIPBOARD_BYTES
    requires Runs(Next(Next(s, SetCmd(text)), Claimed), steps, s') && forall i :: 0 <= i < |steps| ==> Calm(steps[i])
    requires |s.answers| <= k < |s'.answers|
    ensures var a := s'.answers[k];
            && 0 < a.sets <= |s'.sets|
            && (a.target == UTF8_STRING ==> a.served == Some(Prop(UTF8_STRING, s'.sets[a.sets - 1])))
            && (a.target == STRING ==> a.served == Some(Prop(STRING, s'.sets[a.sets - 1])))
            && (a.target == TARGETS ==> a.served == Some(Prop(ATOM, [TARGETS, UTF8_STRING, STRING])))
            && (a.target !in {UTF8_STRING, STRING, TARGETS} ==> a.served == None)
  {
    hide Runs;
    HoldRun(Next(Next(s, SetCmd(text)), Claimed), steps, s', |s.answers|);
    assert ServedNow(s'.answers[k], s'.sets);
  }

  // ---- no request is lost, answered twice or out of turn ----

  /** The requests of a queue, and those that have been answered. */
  function Requests(queue: seq<Event>): seq<Event> {
    if queue == [] then [] else (if queue[0].Request? then [Resolved(queue[0])] else []) + Requests(queue[1..])
  }

  function Answered(answers: seq<Answer>): seq<Event> {
    if answers == [] then []
    else
      var last := answers[|answers| - 1];
      Answered(answers[..|answers| - 1]) + [Request(last.to, last.property, last.target)]
  }

  lemma AnsweredAppend(answers: seq<Answer>, a: Answer)
    ensures Answered(answers + [a]) == Answered(answers) + [Request(a.to, a.property, a.target)]
  {
    assert (answers + [a])[..|answers|] == answers;
  }

  lemma {:induction false} RequestsAppend(queue: seq<Event>, e: Event)
    ensures Requests(queue + [e]) == Requests(queue) + if e.Request? then [Resolved(e)] else []
    decreases |queue|
  {
    var last := if e.Request? then [Resolved(e)] else [];
    if queue == [] {
      assert [] + [e] == [e] && [e][1..] == [];
    } else {
      RequestsAppend(queue[1..], e);
      assert (queue + [e])[1..] == queue[1..] + [e];
      Associative(if queue[0].Request? then [Resolved(queue[0])] else [], Requests(queue[1..]), last);
    }
  }

  /** All requests so far, answered and waiting. */
  function Sent(s: State): seq<Event> { Answered(s.answers) + Requests(s.queue) }

  lemma QueueGrows(s: State, s': State, e: Event)
    requires s'.queue == s.queue + [e] && s'.answers == s.answers
    ensures Sent(s) <= Sent(s')
  {
    RequestsAppend(s.queue, e);
    hide Requests, Answered, Resolved;
    Associative(Answered(s.answers), Requests(s.queue), if e.Request? then [Resolved(e)] else []);
  }

  /** What handling the head of the queue answers, and what it appends. */
  lemma PollMoves(s: State)
    requires Enabled(s, Poll)
    ensures var s', rest := Next(s, Poll), s.queue[1..];
            && (s'.queue == rest || (s'.queue == rest + [s'.queue[|s'.queue| - 1]] && |s'.queue| > 0))
            && if s.queue[0].Request? then
                 && |s'.answers| == |s.answers| + 1 && s'.answers[..|s.answers|] == s.answers
                 && var a := s'.answers[|s.answers|]; Request(a.to, a.property, a.target) == Resolved(s.queue[0])
               else s'.answers == s.answers
  {
  }

  lemma SentPoll(s: State)
    requires Enabled(s, Poll)
    ensures Sent(s) <= Sent(Next(s, Poll))
  {
    var s', head, rest := Next(s, Poll), s.queue[0], s.queue[1..];
    var mid := s'.(queue := rest);
    PollMoves(s);
    if head.Request? {
      var a := s'.answers[|s.answers|];
      assert s'.answers == s.answers + [a];
      AnsweredAppend(s.answers, a);
      hide Next, Answered, Resolved;
      Associative(Answered(s.answers), [Resolved(head)], Requests(rest));
    }
    assert Sent(mid) == Sent(s) by { hide Next; Empty(Requests(rest)); }
    hide Next, Sent;
    if s'.queue != rest {
      QueueGrows(mid, s', s'.queue[|s'.queue| - 1]);
    }
  }

  lemma SentStep(s: State, step: Step)
    requires Enabled(s, step)
    ensures Sent(s) <= Sent(Next(s, step))
  {
    var s' := Next(s, step);
    if step.Poll? {
      SentPoll(s);
    } else {
      OthersAppend(s, step);
      hide Next, Sent;
      if s'.queue == s.queue {
        SameSent(s, s');
      } else {
        QueueGrows(s, s', s'.queue[|s.queue|]);
      }
    }
  }

  lemma SameSent(s: State, s': State)
    requires s'.queue == s.queue && s'.answers == s.answers
    ensures Sent(s') == Sent(s)
  {
  }

  lemma OthersAppend(s: State, step: Step)
    requires Enabled(s, step) && !step.Poll?
    ensures Next(s, step).answers == s.answers
    ensures var q := Next(s, step).queue; q == s.queue || (|q| == |s.queue| + 1 && q == s.queue + [q[|s.queue|]])
  {
    hide OwnEvents;
  }

  lemma {:induction false} SentRun(s: State, steps: seq<Step>, s': State)
    requires Runs(s, steps, s')
    ensures Sent(s) <= Sent(s')
    decreases |steps|
  {
    hide Sent, Next;
    if steps != [] {
      SentStep(s, steps[0]);
      SentRun(Next(s, steps[0]), steps[1..], s');
    }
  }

  /**
   Whatever all clients do, requests are answered in the order they came, each once: the answers given
   and the requests that still wait are always a continuation of those before. A worker that has emptied
   its queue has answered them all.
   */
  lemma RequestsAreAnsweredInOrder(s: State, steps: seq<Step>, s': State)
    requires Runs(s, steps, s')
    ensures Answered(s.answers) + Requests(s.queue) <= Answered(s'.answers) + Requests(s'.queue)
    ensures s'.queue == [] ==> Answered(s.answers) + Requests(s.queue) <= Answered(s'.answers)
  {
    SentRun(s, steps, s');
    hide Runs, Requests, Answered;
    Empty(Answered(s'.answers));
    assert s'.queue == [] ==> Requests(s'.queue) == [] by { NoRequests(); }
  }

  lemma NoRequests()
    ensures Requests([]) == []
  {
  }

  // ---- what the worker reads from others ----

  /** What a `get` makes of the answer of another owner. */
  function ReadOutcome(p: Prop): Outcome {
    if p.kind == INCR || |p.value| > 1048576 then TooLarge else Got(p.value, false)
  }

  /** The properties after a read: only an answer that is too large stays. */
  function AfterRead(props: map<Atom, Prop>, p: Prop): map<Atom, Prop> {
    if p.kind != INCR && |p.value| > 1048576 then props[SHINKEND_CLIP := p] else props - {SHINKEND_CLIP}
  }

  const ANSWERED := Notify(Ours, CLIPBOARD, SHINKEND_CLIP)
  const REFUSED := Notify(Ours, CLIPBOARD, 0)

  /** Another client owns the selection and answers the first request: its text is read, and the property freed. */
  lemma ForeignText(s: State, id: nat, p: Prop)
    requires s.worker.Idle? && s.owner == Some(Theirs(id)) && s.queue == []
    ensures Runs(s, [GetCmd, Put(SHINKEND_CLIP, p), Forge(ANSWERED), Poll],
                 s.(asked := s.asked + [UTF8_STRING], log := s.log + [ReadOutcome(p)], props := AfterRead(s.props, p)))
  {
    var s1 := Next(s, GetCmd);
    var s2 := Next(s1, Put(SHINKEND_CLIP, p));
    var s3 := Next(s2, Forge(ANSWERED));
    var s4 := Next(s3, Poll);
    FourSteps(s, GetCmd, Put(SHINKEND_CLIP, p), Forge(ANSWERED), Poll);
    assert s4.props == AfterRead(s.props, p) && s4.queue == [];
    hide Runs;
  }

  lemma FourSteps(s: State, a: Step, b: Step, c: Step, d: Step)
    requires Enabled(s, a) && Enabled(Next(s, a), b) && Enabled(Next(Next(s, a), b), c)
    requires Enabled(Next(Next(Next(s, a), b), c), d)
    ensures Runs(s, [a, b, c, d], Next(Next(Next(Next(s, a), b), c), d))
  {
    hide Next, Enabled;
    ThreeSteps(Next(s, a), b, c, d);
    assert [a, b, c, d][1..] == [b, c, d];
  }

  lemma ThreeSteps(s: State, a: Step, b: Step, c: Step)
    requires Enabled(s, a) && Enabled(Next(s, a), b) && Enabled(Next(Next(s, a), b), c)
    ensures Runs(s, [a, b, c], Next(Next(Next(s, a), b), c))
  {
    hide Next, Enabled;
    var s2 := Next(Next(s, a), b);
    assert [a, b, c][1..] == [b, c] && [b, c][1..] == [c] && [c][1..] == [];
    assert Runs(Next(s2, c), [], Next(s2, c));
    assert Runs(s2, [c], Next(s2, c));
    assert Runs(Next(s, a), [b, c], Next(s2, c));
  }

  lemma {:induction false} RunsConcat(s: State, first: seq<Step>, mid: State, rest: seq<Step>, s': State)
    requires Runs(s, first, mid) && Runs(mid, rest, s')
    ensures Runs(s, first + rest, s')
    decreases |first|
  {
    hide Enabled, Next;
    if first == [] {
      Empty(rest);
    } else {
      RunsConcat(Next(s, first[0]), first[1..], mid, rest, s');
      assert (first + rest)[1..] == first[1..] + rest;
    }
  }

  /** The first request is refused: STRING is asked for. */
  lemma ForeignRefuses(s: State, id: nat)
    requires s.worker.Idle? && s.owner == Some(Theirs(id)) && s.queue == []
    ensures Runs(s, [GetCmd, Forge(REFUSED), Poll],
                 s.(worker := Getting(true, false), asked := s.asked + [UTF8_STRING, STRING],
                    props := s.props - {SHINKEND_CLIP}))
  {
    ThreeSteps(s, GetCmd, Forge(REFUSED), Poll);
    var s2 := Next(Next(s, GetCmd), Forge(REFUSED));
    assert s2.queue == [REFUSED] && s2.worker == Getting(false, false);
    var s3 := Next(s2, Poll);
    assert s3.queue == s.queue && s3.worker == Getting(true, false);
    assert (s.asked + [UTF8_STRING]) + [STRING] == s.asked + [UTF8_STRING, STRING];
    assert s.props - {SHINKEND_CLIP} - {SHINKEND_CLIP} == s.props - {SHINKEND_CLIP};
    hide Runs;
  }

  /** The second request is answered, and read. */
  lemma RetryIsAnswered(s: State, p: Prop)
    requires s.worker == Getting(true, false) && s.queue == []
    ensures Runs(s, [Put(SHINKEND_CLIP, p), Forge(ANSWERED), Poll],
                 s.(worker := Idle, log := s.log + [ReadOutcome(p)], props := AfterRead(s.props, p)))
  {
    ThreeSteps(s, Put(SHINKEND_CLIP, p), Forge(ANSWERED), Poll);
    var s2 := Next(Next(s, Put(SHINKEND_CLIP, p)), Forge(ANSWERED));
    assert s2.queue == [ANSWERED];
    assert Next(s2, Poll).queue == s.queue && Next(s2, Poll).props == AfterRead(s.props, p);
    hide Runs;
  }

  /** Refused UTF8_STRING, it asks for STRING and reads that answer. */
  lemma ForeignString(s: State, id: nat, p: Prop)
    requires s.worker.Idle? && s.owner == Some(Theirs(id)) && s.queue == []
    ensures Runs(s, [GetCmd, Forge(REFUSED), Poll] + [Put(SHINKEND_CLIP, p), Forge(ANSWERED), Poll],
                 s.(asked := s.asked + [UTF8_STRING, STRING], log := s.log + [ReadOutcome(p)], props := AfterRead(s.props, p)))
  {
    assert AfterRead(s.props - {SHINKEND_CLIP}, p) == AfterRead(s.props, p);
    hide *;
    var mid := s.(worker := Getting(true, false), asked := s.asked + [UTF8_STRING, STRING], props := s.props - {SHINKEND_CLIP});
    ForeignRefuses(s, id);
    RetryIsAnswered(mid, p);
    RunsConcat(s, [GetCmd, Forge(REFUSED), Poll], mid, [Put(SHINKEND_CLIP, p), Forge(ANSWERED), Poll],
               mid.(worker := Idle, log := s.log + [ReadOutcome(p)], props := AfterRead(s.props, p)));
  }

  /** With no owner at all, both requests are refused, and there is no text. */
  lemma NobodyOwns(s: State)
    requires s.worker.Idle? && s.owner == None && s.queue == []
    ensures Runs(s, [GetCmd, Poll, Poll],
                 s.(asked := s.asked + [UTF8_STRING, STRING], props := s.props - {SHINKEND_CLIP}, log := s.log + [NoText]))
  {
    ThreeSteps(s, GetCmd, Poll, Poll);
    assert (s.asked + [UTF8_STRING]) + [STRING] == s.asked + [UTF8_STRING, STRING];
    assert s.props - {SHINKEND_CLIP} - {SHINKEND_CLIP} == s.props - {SHINKEND_CLIP};
    hide Runs;
  }

  /** Anything else that arrives is dropped: notifications to others or of other selections, and strays. */
  lemma StraysAreDropped(s: State)
    requires Enabled(s, Poll) && !s.queue[0].Request? && s.queue[0] != Clear(CLIPBOARD)
    requires s.worker.Getting? && s.queue[0].Notify? ==> s.queue[0].requestor != Ours || s.queue[0].selection != CLIPBOARD
    ensures Next(s, Poll) == s.(queue := s.queue[1..])
  {
  }
}
