/**
 The CLIPBOARD owner: one worker that sets, serves and reads an X11 selection, among other clients that
 may take it, ask for it or send it events (ICCCM sections 2.1, 2.2 and 2.4).
 */
module Clipboard {
  import opened Results
  import opened Sequences

  const MAX_CLIPBOARD_BYTES := 1024 * 1024

  type Text = seq<int>   // the bytes of a text

  type Atom = nat

  // Interned atoms: distinct and not 0, which stands for None.
  const STRING: Atom := 31
  const ATOM: Atom := 4
  const CLIPBOARD: Atom := 100
  const UTF8_STRING: Atom := 101
  const TARGETS: Atom := 102
  const INCR: Atom := 103
  const SHINKEND_CLIP: Atom := 104

  // ---- the pure parts ----

  datatype Serve = ServeTargets | ServeUtf8 | ServeLatin1 | Refuse

  function ClassifyTarget(target: Atom): Serve {
    if target == TARGETS then ServeTargets
    else if target == UTF8_STRING then ServeUtf8
    else if target == STRING then ServeLatin1
    else Refuse
  }

  /** An obsolete requestor names no property; the reply goes to one named after the target. */
  function ReplyProperty(requested: Atom, target: Atom): Atom {
    if requested == 0 then target else requested
  }

  datatype GetStep = Fetch(property: Atom) | RetryString | GiveUp

  function OnNotify(triedString: bool, property: Atom): GetStep {
    if property != 0 then Fetch(property) else if !triedString then RetryString else GiveUp
  }

  // ---- the server, the other clients and the worker ----

  datatype Window = Ours | Theirs(id: nat)

  datatype Prop = Prop(kind: Atom, value: seq<int>)

  datatype Event =
    | Request(requestor: Window, property: Atom, target: Atom)
    | Clear(selection: Atom)
    | Notify(requestor: Window, selection: Atom, property: Atom)
    | Other

  /** An answer to one request; `sets` is how many texts had been set by then. */
  datatype Answer = Answer(to: Window, target: Atom, property: Atom, served: Option<Prop>, sets: nat)

  /** The worker between commands, or inside `set` or `get`; `stale` records how that `get` started. */
  datatype Worker = Idle | Claiming | Getting(triedString: bool, stale: bool)

  datatype Outcome = SetDone(text: Text, ok: bool) | SetTooLarge | Got(text: Text, stale: bool) | NoText | TooLarge | TimedOut

  /**
   `owner` is the selection's owner, `props` the properties of our window, `queue` our event queue.
   `text` is what the worker serves. `sets`, `asked`, `answers` and `log` record the texts set, the targets
   asked for, the answers given and the outcomes returned.
   */
  datatype State = State(
    owner: Option<Window>, props: map<Atom, Prop>, queue: seq<Event>, text: Option<Text>, worker: Worker,
    sets: seq<Text>, asked: seq<Atom>, answers: seq<Answer>, log: seq<Outcome>)

  datatype Step =
    | SetCmd(text: Text)
    | Claimed
    | GetCmd
    | Poll
    | TimeOut
    // other clients
    | Take(owner: Option<nat>)
    | Ask(id: nat, property: Atom, target: Atom)
    | Put(property: Atom, prop: Prop)
    | Forge(event: Event)

  function Start(owner: Option<Window>): State { State(owner, map[], [], None, Idle, [], [], [], []) }

  predicate Enabled(s: State, step: Step) {
    match step
    case SetCmd(_) => s.worker.Idle?
    case Claimed => s.worker.Claiming? && s.sets != []
    case GetCmd => s.worker.Idle?
    case Poll => !s.worker.Claiming? && s.queue != []
    case TimeOut => s.worker.Getting?
    case _ => true
  }

  /** The server tells the old owner that it lost the selection. */
  function SetOwner(s: State, owner: Option<Window>): State {
    s.(owner := owner, queue := if s.owner == Some(Ours) && owner != Some(Ours) then s.queue + [Clear(CLIPBOARD)] else s.queue)
  }

  /** `convert`: drop the transfer property and ask the owner; with no owner the server refuses. */
  function Convert(s: State, target: Atom): State {
    s.(props := s.props - {SHINKEND_CLIP}, asked := s.asked + [target],
       queue := match s.owner
                case None => s.queue + [Notify(Ours, CLIPBOARD, 0)]
                case Some(Ours) => s.queue + [Request(Ours, SHINKEND_CLIP, target)]
                case Some(Theirs(_)) => s.queue)
  }

  function TargetsList(): Prop { Prop(ATOM, [TARGETS, UTF8_STRING, STRING]) }

  /** What is served for a target, if anything. */
  function Served(text: Option<Text>, target: Atom): Option<Prop> {
    match (ClassifyTarget(target), text)
    case (ServeTargets, Some(_)) => Some(TargetsList())
    case (ServeUtf8, Some(t)) => Some(Prop(UTF8_STRING, t))
    case (ServeLatin1, Some(t)) => Some(Prop(STRING, t))
    case _ => None
  }

  /** `serve`: write the reply and notify the requestor; our own window's events come back to us. */
  function Serves(s: State, requestor: Window, property: Atom, target: Atom): State {
    var prop := ReplyProperty(property, target);
    var served := Served(s.text, target);
    var s' := s.(answers := s.answers + [Answer(requestor, target, prop, served, |s.sets|)]);
    if requestor != Ours then s'
    else s'.(props := if served.Some? then s.props[prop := served.value] else s.props,
             queue := s.queue + [Notify(Ours, CLIPBOARD, if served.Some? then prop else 0)])
  }

  /** `read_property`: at most the cap, deleted when read whole. */
  function ReadProperty(s: State, property: Atom, stale: bool): State {
    if property !in s.props then s.(worker := Idle, log := s.log + [Got([], stale)])
    else
      var p := s.props[property];
      if p.kind == INCR then s.(worker := Idle, props := s.props - {property}, log := s.log + [TooLarge])
      else if |p.value| > MAX_CLIPBOARD_BYTES then s.(worker := Idle, log := s.log + [TooLarge])
      else s.(worker := Idle, props := s.props - {property}, log := s.log + [Got(p.value, stale)])
  }

  /** `handle`, and what `get` does with the notification it returns. */
  function Handle(s: State, e: Event): State {
    match e
    case Request(requestor, property, target) => Serves(s, requestor, property, target)
    case Clear(selection) => if selection == CLIPBOARD then s.(text := None) else s
    case Notify(requestor, selection, property) =>
      if !s.worker.Getting? || requestor != Ours || selection != CLIPBOARD then s
      else (
        match OnNotify(s.worker.triedString, property)
        case Fetch(p) => ReadProperty(s, p, s.worker.stale)
        case RetryString => Convert(s.(worker := s.worker.(triedString := true)), STRING)
        case GiveUp => s.(worker := Idle, log := s.log + [NoText]))
    case Other => s
  }

  function Next(s: State, step: Step): State
    requires Enabled(s, step)
  {
    match step
    case SetCmd(text) =>
      if |text| > MAX_CLIPBOARD_BYTES then s.(log := s.log + [SetTooLarge])
      else SetOwner(s, Some(Ours)).(text := Some(text), worker := Claiming, sets := s.sets + [text])
    case Claimed => s.(worker := Idle, log := s.log + [SetDone(s.sets[|s.sets| - 1], s.owner == Some(Ours))])
    case GetCmd => Convert(s.(worker := Getting(false, StartsStale(s.queue))), UTF8_STRING)
    case Poll => Handle(s.(queue := s.queue[1..]), s.queue[0])
    case TimeOut => s.(worker := Idle, log := s.log + [TimedOut])
    case Take(owner) => SetOwner(s, if owner.Some? then Some(Theirs(owner.value)) else None)
    case Ask(id, property, target) =>
      if s.owner == Some(Ours) then s.(queue := s.queue + [Request(Theirs(id), property, target)]) else s
    case Put(property, prop) => s.(props := s.props[property := prop])
    case Forge(e) => s.(queue := s.queue + [e])
  }

  /** An event of a conversion of our own. */
  predicate Own(e: Event) {
    (e.Request? && e.requestor == Ours) || (e.Notify? && e.requestor == Ours && e.selection == CLIPBOARD)
  }

  function OwnEvents(queue: seq<Event>): seq<Event> {
    if queue == [] then [] else (if Own(queue[0]) then [queue[0]] else []) + OwnEvents(queue[1..])
  }

  /** The next event of our own conversions is a late notification, left by an earlier `get`. */
  predicate StartsStale(queue: seq<Event>) {
    OwnEvents(queue) != [] && OwnEvents(queue)[0].Notify?
  }

  ghost predicate Runs(s: State, steps: seq<Step>, s': State)
    decreases |steps|
  {
    if steps == [] then s' == s else Enabled(s, steps[0]) && Runs(Next(s, steps[0]), steps[1..], s')
  }

  // ---- whatever the other clients do: only the last set text is served ----

  /** The three targets that a text is offered as. */
  predicate Offered(target: Atom) { target == TARGETS || target == UTF8_STRING || target == STRING }

  /** The answer to one of them, with this text. */
  predicate Carries(p: Prop, target: Atom, text: Text) {
    && (target == TARGETS ==> p == Prop(ATOM, [TARGETS, UTF8_STRING, STRING]))
    && (target == UTF8_STRING ==> p == Prop(UTF8_STRING, text))
    && (target == STRING ==> p == Prop(STRING, text))
  }

  /** A text or the targets list, or a refusal: nothing else, and never another text. */
  ghost predicate Truthful(a: Answer, sets: seq<Text>) {
    && a.sets <= |sets|
    && (a.served.Some? ==>
          a.sets > 0 && a.property != 0 && Offered(a.target) && Carries(a.served.value, a.target, sets[a.sets - 1]))
  }

  ghost predicate TruthInv(s: State) {
    && (s.text.Some? ==> s.sets != [] && s.text.value == s.sets[|s.sets| - 1])
    && (s.worker.Claiming? ==> s.sets != [])
    && forall i :: 0 <= i < |s.answers| ==> Truthful(s.answers[i], s.sets)
  }

  lemma TruthStep(s: State, step: Step)
    requires TruthInv(s) && Enabled(s, step)
    ensures TruthInv(Next(s, step))
  {
  }

  lemma {:induction false} TruthRun(s: State, steps: seq<Step>, s': State)
    requires TruthInv(s) && Runs(s, steps, s')
    ensures TruthInv(s')
    decreases |steps|
  {
    hide TruthInv;
    if steps != [] {
      TruthStep(s, steps[0]);
      TruthRun(Next(s, steps[0]), steps[1..], s');
    }
  }

  /** In every run, every answer carries the last text set before it, or is the targets list, or refuses. */
  lemma AnswersAreTruthful(owner: Option<Window>, steps: seq<Step>, s: State)
    requires Runs(Start(owner), steps, s)
    ensures forall i :: 0 <= i < |s.answers| ==> Truthful(s.answers[i], s.sets)
  {
    TruthRun(Start(owner), steps, s);
    hide Runs, Truthful;
  }

  // ---- with no takeover: an atomic register ----

  lemma {:induction false} OwnAppend(queue: seq<Event>, e: Event)
    ensures OwnEvents(queue + [e]) == OwnEvents(queue) + if Own(e) then [e] else []
    decreases |queue|
  {
    hide Own;
    var last := if Own(e) then [e] else [];
    if queue == [] {
      OwnOne(e);
      assert queue + [e] == [e];
    } else {
      var head := if Own(queue[0]) then [queue[0]] else [];
      OwnAppend(queue[1..], e);
      OwnStep(queue);
      OwnStep(queue + [e]);
      assert (queue + [e])[1..] == queue[1..] + [e];
      hide OwnEvents;
      Associative(head, OwnEvents(queue[1..]), last);
    }
  }

  lemma OwnStep(queue: seq<Event>)
    requires queue != []
    ensures OwnEvents(queue) == (if Own(queue[0]) then [queue[0]] else []) + OwnEvents(queue[1..])
  {
  }

  lemma OwnOne(e: Event)
    ensures OwnEvents([e]) == [] + if Own(e) then [e] else []
  {
    OwnStep([e]);
    assert [e][1..] == [];
  }

  /** Nobody takes the selection, writes our transfer property, or sends us events of the kinds that this protocol answers. */
  predicate Calm(step: Step) {
    match step
    case Take(_) => false
    case Put(property, _) => property != SHINKEND_CLIP
    case Forge(e) => !Own(e) && e != Clear(CLIPBOARD)
    case _ => true
  }

  ghost predicate NoClear(queue: seq<Event>) {
    forall i :: 0 <= i < |queue| ==> queue[i] != Clear(CLIPBOARD)
  }

  /** Our own conversions still under way: requests, and notifications that they were served. */
  ghost predicate Pending(own: seq<Event>) {
    forall i :: 0 <= i < |own| ==>
      || own[i] == Request(Ours, SHINKEND_CLIP, UTF8_STRING)
      || own[i] == Notify(Ours, CLIPBOARD, SHINKEND_CLIP)
  }

  /** The last text a successful `set` returned with. */
  function LastSet(log: seq<Outcome>): Option<Text> {
    if log == [] then None
    else
      var last := log[|log| - 1];
      if last.SetDone? && last.ok then Some(last.text) else LastSet(log[..|log| - 1])
  }

  lemma LastSetAppend(log: seq<Outcome>, o: Outcome)
    ensures LastSet(log + [o]) == if o.SetDone? && o.ok then Some(o.text) else LastSet(log)
  {
    assert (log + [o])[..|log|] == log;
  }

  /** What one outcome may be, given those before it. */
  ghost predicate Atomic(before: seq<Outcome>, o: Outcome) {
    match o
    case SetDone(_, ok) => ok
    case Got(text, stale) => if stale then text == [] else Some(text) == LastSet(before)
    case NoText => false
    case TooLarge => false
    case _ => true
  }

  ghost predicate AllAtomic(log: seq<Outcome>, from: nat) {
    forall i :: from <= i < |log| ==> Atomic(log[..i], log[i])
  }

  lemma AtomicAppend(log: seq<Outcome>, from: nat, o: Outcome)
    requires AllAtomic(log, from) && Atomic(log, o)
    ensures AllAtomic(log + [o], from)
  {
    hide Atomic;
    var longer := log + [o];
    forall i | from <= i < |longer| ensures Atomic(longer[..i], longer[i]) {
      assert longer[..i] == log[..i];
      assert i == |log| ==> log[..i] == log;
    }
  }

  /** What a `get` under way will read: the last text, or nothing when a late notification comes first. */
  ghost predicate ReadInv(s: State, own: seq<Event>, text: Text) {
    s.worker.Getting? ==>
      && own != [] && !s.worker.triedString
      && if own[0].Request? then !s.worker.stale
         else if s.worker.stale then SHINKEND_CLIP !in s.props
         else SHINKEND_CLIP in s.props && s.props[SHINKEND_CLIP] == Prop(UTF8_STRING, text)
  }

  /** The worker owns the selection and serves the last text set. */
  ghost predicate CalmInv(s: State, from: nat) {
    && s.owner == Some(Ours) && s.text.Some? && |s.text.value| <= MAX_CLIPBOARD_BYTES
    && NoClear(s.queue) && Pending(OwnEvents(s.queue)) && ReadInv(s, OwnEvents(s.queue), s.text.value)
    && AllAtomic(s.log, from) && from <= |s.log|
    && (if s.worker.Claiming? then s.sets != [] && s.text == Some(s.sets[|s.sets| - 1]) else LastSet(s.log) == s.text)
  }

  lemma SameOwn(s: State, s': State, from: nat)
    requires CalmInv(s, from) && NoClear(s'.queue) && OwnEvents(s'.queue) == OwnEvents(s.queue)
    requires s' == s.(queue := s'.queue, answers := s'.answers)
    ensures CalmInv(s', from)
  {
    hide NoClear, OwnEvents, Pending, AllAtomic, LastSet;
  }

  lemma OwnHead(queue: seq<Event>)
    requires queue != []
    ensures OwnEvents(queue) == if Own(queue[0]) then [queue[0]] + OwnEvents(queue[1..]) else OwnEvents(queue[1..])
    ensures NoClear(queue) ==> NoClear(queue[1..]) && queue[0] != Clear(CLIPBOARD)
  {
    assert [] + OwnEvents(queue[1..]) == OwnEvents(queue[1..]);
  }

  lemma PollOther(s: State, from: nat)
    requires CalmInv(s, from) && Enabled(s, Poll) && !Own(s.queue[0])
    ensures CalmInv(Next(s, Poll), from)
  {
    OwnHead(s.queue);
    hide NoClear, OwnEvents, CalmInv;
    var s' := Next(s, Poll);
    assert NoClear(s.queue) by { CalmNoClear(s, from); }
    SameOwn(s, s', from);
  }

  lemma CalmNoClear(s: State, from: nat)
    requires CalmInv(s, from)
    ensures NoClear(s.queue)
  {
  }

  lemma PendingNext(e: Event, own: seq<Event>)
    requires Pending([e] + own)
    ensures e == Request(Ours, SHINKEND_CLIP, UTF8_STRING) || e == Notify(Ours, CLIPBOARD, SHINKEND_CLIP)
    ensures Pending(own) && Pending(own + [Notify(Ours, CLIPBOARD, SHINKEND_CLIP)])
  {
    assert ([e] + own)[0] == e;
    forall i | 0 <= i < |own| ensures own[i] == ([e] + own)[i + 1] {}
  }

  lemma PollRequest(s: State, from: nat)
    requires CalmInv(s, from) && Enabled(s, Poll) && s.queue[0] == Request(Ours, SHINKEND_CLIP, UTF8_STRING)
    ensures CalmInv(Next(s, Poll), from)
  {
    var rest, e := s.queue[1..], Notify(Ours, CLIPBOARD, SHINKEND_CLIP);
    OwnHead(s.queue);
    OwnAppend(rest, e);
    PendingNext(s.queue[0], OwnEvents(rest));
    assert Next(s, Poll) == s.(queue := rest + [e], props := s.props[SHINKEND_CLIP := Prop(UTF8_STRING, s.text.value)],
                               answers := Next(s, Poll).answers);
    hide OwnEvents, AllAtomic, LastSet, Pending, Next;
  }

  lemma PollNotify(s: State, from: nat)
    requires CalmInv(s, from) && Enabled(s, Poll) && s.queue[0] == Notify(Ours, CLIPBOARD, SHINKEND_CLIP)
    ensures CalmInv(Next(s, Poll), from)
  {
    OwnHead(s.queue);
    PendingNext(s.queue[0], OwnEvents(s.queue[1..]));
    if s.worker.Getting? {
      var o := Got(if s.worker.stale then [] else s.text.value, s.worker.stale);
      assert Next(s, Poll).log == s.log + [o];
      LastSetAppend(s.log, o);
      AtomicAppend(s.log, from, o);
    }
    hide OwnEvents, AllAtomic, LastSet, Pending;
  }

  lemma CalmStep(s: State, step: Step, from: nat)
    requires CalmInv(s, from) && Enabled(s, step) && Calm(step)
    ensures CalmInv(Next(s, step), from)
  {
    match step
    case Poll =>
      OwnHead(s.queue);
      if !Own(s.queue[0]) {
        PollOther(s, from);
      } else {
        assert s.queue[0] == OwnEvents(s.queue)[0];
        if s.queue[0].Request? {
          PollRequest(s, from);
        } else {
          PollNotify(s, from);
        }
      }
    case GetCmd => GetCalm(s, from);
    case Ask(id, property, target) => QueueCalm(s, Request(Theirs(id), property, target), from);
    case Forge(e) => QueueCalm(s, e, from);
    case Put(property, prop) => PutCalm(s, property, prop, from);
    case _ => LogCalm(s, step, from);
  }

  lemma QueueCalm(s: State, e: Event, from: nat)
    requires CalmInv(s, from) && !Own(e) && e != Clear(CLIPBOARD)
    ensures CalmInv(s.(queue := s.queue + [e]), from)
  {
    OwnAppend(s.queue, e);
    assert OwnEvents(s.queue) + [] == OwnEvents(s.queue);
    hide OwnEvents;
    SameOwn(s, s.(queue := s.queue + [e]), from);
  }

  lemma PutCalm(s: State, property: Atom, prop: Prop, from: nat)
    requires CalmInv(s, from) && property != SHINKEND_CLIP
    ensures CalmInv(s.(props := s.props[property := prop]), from)
  {
    hide OwnEvents, AllAtomic, LastSet, NoClear, Pending;
  }

  lemma GetCalm(s: State, from: nat)
    requires CalmInv(s, from) && Enabled(s, GetCmd)
    ensures CalmInv(Next(s, GetCmd), from)
  {
    OwnAppend(s.queue, Request(Ours, SHINKEND_CLIP, UTF8_STRING));
    hide OwnEvents, AllAtomic, LastSet;
  }

  /** An outcome is recorded; the queue and the display stay. */
  lemma LogCalm(s: State, step: Step, from: nat)
    requires CalmInv(s, from) && Enabled(s, step) && (step.SetCmd? || step.Claimed? || step.TimeOut?)
    ensures CalmInv(Next(s, step), from)
  {
    var s' := Next(s, step);
    assert s'.queue == s.queue;
    if s'.log != s.log {
      var o := s'.log[|s.log|];
      assert s'.log == s.log + [o] && Atomic(s.log, o);
      hide Atomic, OwnEvents, NoClear, Pending;
      LastSetAppend(s.log, o);
      AtomicAppend(s.log, from, o);
    }
    hide OwnEvents, AllAtomic, LastSet, NoClear, Pending;
  }

  lemma {:induction false} CalmRun(s: State, steps: seq<Step>, s': State, from: nat)
    requires CalmInv(s, from) && Runs(s, steps, s') && forall i :: 0 <= i < |steps| ==> Calm(steps[i])
    ensures CalmInv(s', from) && s.log <= s'.log
    decreases |steps|
  {
    hide CalmInv;
    if steps != [] {
      CalmStep(s, steps[0], from);
      LogGrows(s, steps[0]);
      hide Next;
      CalmRun(Next(s, steps[0]), steps[1..], s', from);
    }
  }

  lemma LogGrows(s: State, step: Step)
    requires Enabled(s, step)
    ensures s.log <= Next(s, step).log
  {
    hide OwnEvents;
  }

  /** Idle, with no conversion of our own under way. */
  ghost predicate Settled(s: State) {
    s.worker.Idle? && OwnEvents(s.queue) == []
  }

  /**
   The register: after a `set` in a settled state with no takeover queued, whatever interleaving follows
   with nobody taking the selection, every outcome is atomic. A `set` succeeds; a `get` that does not
   time out returns the text of the latest `set`, unless it starts behind the late notification of an
   earlier `get` that timed out: then, and only then, it returns the empty text.
   */
  lemma {:induction false} RegisterIsAtomic(s: State, text: Text, steps: seq<Step>, s': State)
    requires Settled(s) && NoClear(s.queue) && |text| <= MAX_CLIPBOARD_BYTES
    requires Runs(Next(Next(s, SetCmd(text)), Claimed), steps, s') && forall i :: 0 <= i < |steps| ==> Calm(steps[i])
    ensures AllAtomic(s'.log, |s.log|) && s.log + [SetDone(text, true)] <= s'.log
  {
    var s1 := Next(Next(s, SetCmd(text)), Claimed);
    LastSetAppend(s.log, SetDone(text, true));
    AtomicAppend(s.log, |s.log|, SetDone(text, true));
    hide AllAtomic, LastSet, Runs;
    CalmRun(s1, steps, s', |s.log|);
  }

  // ---- without timeouts ----

  ghost predicate NoneStale(log: seq<Outcome>, from: nat) {
    forall i :: from <= i < |log| ==> !(log[i].Got? && log[i].stale) && !log[i].TimedOut?
  }

  /** At most the conversion of the `get` under way is pending. */
  ghost predicate OneInv(s: State, from: nat) {
    && CalmInv(s, from) && NoneStale(s.log, from)
    && (if s.worker.Getting? then |OwnEvents(s.queue)| == 1 && !s.worker.stale else OwnEvents(s.queue) == [])
  }

  lemma OneQueue(s: State, e: Event)
    ensures OwnEvents(s.queue + [e]) == if Own(e) then OwnEvents(s.queue) + [e] else OwnEvents(s.queue)
  {
    OwnAppend(s.queue, e);
    assert OwnEvents(s.queue) + [] == OwnEvents(s.queue);
  }

  lemma OnePoll(s: State, from: nat)
    requires OneInv(s, from) && Enabled(s, Poll) && CalmInv(Next(s, Poll), from)
    ensures OneInv(Next(s, Poll), from)
  {
    var e, rest := s.queue[0], s.queue[1..];
    OwnHead(s.queue);
    if Own(e) {
      assert e == OwnEvents(s.queue)[0] && OwnEvents(rest) == [];
      PendingNext(e, OwnEvents(rest));
      OneQueue(s.(queue := rest), Notify(Ours, CLIPBOARD, SHINKEND_CLIP));
    }
    hide OwnEvents, CalmInv, Pending;
  }

  /** What a step other than a poll adds to our own events. */
  lemma OneOwn(s: State, step: Step)
    requires Enabled(s, step) && Calm(step) && !step.Poll? && (step.GetCmd? ==> s.owner == Some(Ours))
    ensures OwnEvents(Next(s, step).queue) ==
            if step.GetCmd? then OwnEvents(s.queue) + [Request(Ours, SHINKEND_CLIP, UTF8_STRING)] else OwnEvents(s.queue)
  {
    match step
    case GetCmd => OneQueue(s, Request(Ours, SHINKEND_CLIP, UTF8_STRING)); hide OwnEvents;
    case Ask(id, property, target) => OneQueue(s, Request(Theirs(id), property, target)); hide OwnEvents;
    case Forge(e) => OneQueue(s, e); hide OwnEvents;
    case _ => hide OwnEvents;
  }

  lemma OneOther(s: State, step: Step, from: nat)
    requires OneInv(s, from) && Enabled(s, step) && Calm(step) && !step.TimeOut? && !step.Poll?
    requires CalmInv(Next(s, step), from)
    ensures OneInv(Next(s, step), from)
  {
    assert s.owner == Some(Ours);
    OneOwn(s, step);
    hide OwnEvents, CalmInv;
  }

  lemma OneStep(s: State, step: Step, from: nat)
    requires OneInv(s, from) && Enabled(s, step) && Calm(step) && !step.TimeOut?
    ensures OneInv(Next(s, step), from)
  {
    OneIsCalm(s, from);
    hide OneInv, CalmInv, Next;
    CalmStep(s, step, from);
    if step.Poll? {
      OnePoll(s, from);
    } else {
      OneOther(s, step, from);
    }
  }

  lemma OneIsCalm(s: State, from: nat)
    requires OneInv(s, from)
    ensures CalmInv(s, from)
  {
  }

  lemma {:induction false} OneRun(s: State, steps: seq<Step>, s': State, from: nat)
    requires OneInv(s, from) && Runs(s, steps, s')
    requires forall i :: 0 <= i < |steps| ==> Calm(steps[i]) && !steps[i].TimeOut?
    ensures OneInv(s', from)
    decreases |steps|
  {
    hide OneInv;
    if steps != [] {
      OneStep(s, steps[0], from);
      hide Next;
      OneRun(Next(s, steps[0]), steps[1..], s', from);
    }
  }

  /** With no timeout either, every `get` returns the text of the latest `set`: a plain register. */
  lemma {:induction false} RegisterIsPlain(s: State, text: Text, steps: seq<Step>, s': State, k: nat)
    requires Settled(s) && NoClear(s.queue) && |text| <= MAX_CLIPBOARD_BYTES
    requires Runs(Next(Next(s, SetCmd(text)), Claimed), steps, s')
    requires forall i :: 0 <= i < |steps| ==> Calm(steps[i]) && !steps[i].TimeOut?
    requires |s.log| <= k < |s'.log|
    ensures match s'.log[k]
            case SetDone(_, ok) => ok
            case SetTooLarge => true
            case Got(read, _) => LastSet(s'.log[..k]) == Some(read)
            case _ => false
  {
    PlainStart(s, text);
    hide Runs, OneInv, Next;
    OneRun(Next(Next(s, SetCmd(text)), Claimed), steps, s', |s.log|);
    OneOutcome(s', |s.log|, k);
  }

  lemma PlainStart(s: State, text: Text)
    requires Settled(s) && NoClear(s.queue) && |text| <= MAX_CLIPBOARD_BYTES
    ensures OneInv(Next(Next(s, SetCmd(text)), Claimed), |s.log|)
  {
    LastSetAppend(s.log, SetDone(text, true));
    AtomicAppend(s.log, |s.log|, SetDone(text, true));
    hide AllAtomic, LastSet;
  }

  lemma OneOutcome(s: State, from: nat, k: nat)
    requires OneInv(s, from) && from <= k < |s.log|
    ensures match s.log[k]
            case SetDone(_, ok) => ok
            case SetTooLarge => true
            case Got(read, _) => LastSet(s.log[..k]) == Some(read)
            case _ => false
  {
    hide OwnEvents, LastSet, NoClear, Pending, ReadInv;
    assert Atomic(s.log[..k], s.log[k]);
  }

  // ---- a takeover still queued when the text is set ----

  /** A SelectionClear of the clipboard is handled before any event of our own conversions. */
  predicate ClearFirst(queue: seq<Event>) {
    queue != [] && (queue[0] == Clear(CLIPBOARD) || (!Own(queue[0]) && ClearFirst(queue[1..])))
  }

  lemma {:induction false} ClearFirstAppend(queue: seq<Event>, e: Event)
    requires ClearFirst(queue)
    ensures ClearFirst(queue + [e])
    decreases |queue|
  {
    assert (queue + [e])[0] == queue[0];
    if queue[0] != Clear(CLIPBOARD) {
      ClearFirstAppend(queue[1..], e);
      assert (queue + [e])[1..] == queue[1..] + [e];
    }
  }

  lemma {:induction false} ClearComesFirst(queue: seq<Event>)
    requires OwnEvents(queue) == [] && !NoClear(queue)
    ensures ClearFirst(queue)
    decreases |queue|
  {
    OwnHead(queue);
    if queue[0] != Clear(CLIPBOARD) {
      assert !NoClear(queue[1..]) by {
        var i :| 0 <= i < |queue| && queue[i] == Clear(CLIPBOARD);
        assert queue[1..][i - 1] == queue[i];
      }
      ClearComesFirst(queue[1..]);
    }
  }

  ghost predicate AllNoText(log: seq<Outcome>, from: nat) {
    forall i :: from <= i < |log| ==> log[i] == NoText
  }

  /** The worker owns the selection, but its text is lost or about to be. */
  ghost predicate LostInv(s: State, from: nat) {
    && s.owner == Some(Ours) && AllNoText(s.log, from) && from <= |s.log| && !s.worker.Claiming?
    && (s.text.Some? ==> ClearFirst(s.queue))
    && match s.worker
       case Getting(_, _) => LostGet(s.text, OwnEvents(s.queue))
       case _ => OwnEvents(s.queue) == []
  }

  ghost predicate LostGet(text: Option<Text>, own: seq<Event>) {
    |own| == 1 && if own[0].Request? then true else text.None? && own[0] == Notify(Ours, CLIPBOARD, 0)
  }

  lemma LostPollOther(s: State, from: nat)
    requires LostInv(s, from) && Enabled(s, Poll) && !Own(s.queue[0])
    ensures LostInv(Next(s, Poll), from)
  {
    OwnHead(s.queue);
    assert Next(s, Poll).queue == s.queue[1..];
    hide OwnEvents, AllNoText;
  }

  lemma LostPollRequest(s: State, from: nat)
    requires LostInv(s, from) && Enabled(s, Poll) && Own(s.queue[0]) && s.queue[0].Request?
    ensures LostInv(Next(s, Poll), from)
  {
    var rest, refusal := s.queue[1..], Notify(Ours, CLIPBOARD, 0);
    OwnHead(s.queue);
    assert s.text == None && OwnEvents(rest) == [];
    OwnAppend(rest, refusal);
    assert Next(s, Poll).queue == rest + [refusal];
    hide OwnEvents, AllNoText, ClearFirst;
  }

  lemma LostPollNotify(s: State, from: nat)
    requires LostInv(s, from) && Enabled(s, Poll) && Own(s.queue[0]) && s.queue[0].Notify?
    ensures LostInv(Next(s, Poll), from)
  {
    var rest, again := s.queue[1..], Request(Ours, SHINKEND_CLIP, STRING);
    OwnHead(s.queue);
    assert OwnEvents(s.queue)[0] == s.queue[0] && OwnEvents(rest) == [];
    OwnAppend(rest, again);
    hide OwnEvents, ClearFirst;
  }

  lemma LostPoll(s: State, from: nat)
    requires LostInv(s, from) && Enabled(s, Poll)
    ensures LostInv(Next(s, Poll), from)
  {
    hide LostInv, Next, OwnEvents;
    if !Own(s.queue[0]) {
      LostPollOther(s, from);
    } else if s.queue[0].Request? {
      LostPollRequest(s, from);
    } else {
      LostPollNotify(s, from);
    }
  }

  lemma LostStep(s: State, step: Step, from: nat)
    requires LostInv(s, from) && Enabled(s, step) && Calm(step) && !step.TimeOut? && !step.SetCmd?
    ensures LostInv(Next(s, step), from)
  {
    match step
    case Poll => LostPoll(s, from);
    case GetCmd => LostQueue(s, Request(Ours, SHINKEND_CLIP, UTF8_STRING));
    case Ask(id, property, target) => LostQueue(s, Request(Theirs(id), property, target));
    case Forge(e) => LostQueue(s, e);
    case Put(_, _) => hide OwnEvents, ClearFirst;
  }

  lemma LostQueue(s: State, e: Event)
    ensures OwnEvents(s.queue + [e]) == OwnEvents(s.queue) + if Own(e) then [e] else []
    ensures ClearFirst(s.queue) ==> ClearFirst(s.queue + [e])
  {
    OwnAppend(s.queue, e);
    if ClearFirst(s.queue) {
      ClearFirstAppend(s.queue, e);
    }
  }

  lemma {:induction false} LostRun(s: State, steps: seq<Step>, s': State, from: nat)
    requires LostInv(s, from) && Runs(s, steps, s')
    requires forall i :: 0 <= i < |steps| ==> Calm(steps[i]) && !steps[i].TimeOut? && !steps[i].SetCmd?
    ensures LostInv(s', from)
    decreases |steps|
  {
    hide LostInv;
    if steps != [] {
      LostStep(s, steps[0], from);
      hide Next;
      LostRun(Next(s, steps[0]), steps[1..], s', from);
    }
  }

  /**
   A `set` that reports success survives exactly when no SelectionClear was queued before it: every
   later `get` then returns the text, and otherwise every one finds no text, although nobody took the
   selection after the `set`.
   */
  lemma {:induction false} SetSurvivesIff(s: State, text: Text, steps: seq<Step>, s': State, k: nat)
    requires Settled(s) && |text| <= MAX_CLIPBOARD_BYTES
    requires Runs(Next(Next(s, SetCmd(text)), Claimed), steps, s') && |s.log| + 1 <= k < |s'.log|
    requires forall i :: 0 <= i < |steps| ==> Calm(steps[i]) && !steps[i].TimeOut? && !steps[i].SetCmd?
    ensures Next(Next(s, SetCmd(text)), Claimed).log == s.log + [SetDone(text, true)]
    ensures s'.log[k] == if NoClear(s.queue) then Got(text, false) else NoText
  {
    var s1 := Next(Next(s, SetCmd(text)), Claimed);
    if NoClear(s.queue) {
      LastSetAppend(s.log, SetDone(text, true));
      AtomicAppend(s.log, |s.log|, SetDone(text, true));
      hide AllAtomic, LastSet, Runs;
      KeepRun(s1, steps, s', |s1.log|, text);
    } else {
      ClearComesFirst(s.queue);
      hide Runs;
      LostRun(s1, steps, s', |s1.log|);
    }
  }

  /** With no further `set`, everything read is the one text. */
  ghost predicate KeepInv(s: State, from: nat, text: Text) {
    && OneInv(s, from) && s.text == Some(text) && !s.worker.Claiming?
    && forall i :: from <= i < |s.log| ==> s.log[i] == Got(text, false)
  }

  lemma {:induction false} KeepRun(s: State, steps: seq<Step>, s': State, from: nat, text: Text)
    requires KeepInv(s, from, text) && Runs(s, steps, s')
    requires forall i :: 0 <= i < |steps| ==> Calm(steps[i]) && !steps[i].TimeOut? && !steps[i].SetCmd?
    ensures KeepInv(s', from, text)
    decreases |steps|
  {
    hide KeepInv;
    if steps != [] {
      KeepStep(s, steps[0], from, text);
      hide Next;
      KeepRun(Next(s, steps[0]), steps[1..], s', from, text);
    }
  }

  lemma KeepStep(s: State, step: Step, from: nat, text: Text)
    requires KeepInv(s, from, text) && Enabled(s, step) && Calm(step) && !step.TimeOut? && !step.SetCmd?
    ensures KeepInv(Next(s, step), from, text)
  {
    OneStep(s, step, from);
    if step.Poll? {
      OwnHead(s.queue);
      assert Own(s.queue[0]) ==> s.queue[0] == OwnEvents(s.queue)[0];
    }
    hide OwnEvents, AllAtomic, LastSet;
  }
}
