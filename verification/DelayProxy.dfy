/**
 The delay proxy: in each direction a reader and a drainer share a timestamped queue, so that every
 chunk leaves one delay after it arrived.
 */
module DelayProxy {
  import opened Results
  import opened Sequences

  const CHUNK := 64 * 1024

  type Bytes = seq<int>

  /** A chunk with a time stamp; None is the end of the stream. */
  datatype Item = Item(at: real, data: Option<Bytes>)

  datatype Drainer = Getting | Sleeping(item: Item) | Flushing | Finished

  /** One direction. `fed` records what the reader queued, at its arrival; `out` what reached the writer. */
  datatype State = State(
    now: real, reading: bool, queue: seq<Item>, drainer: Drainer, fed: seq<Item>, out: seq<Item>)

  datatype Step =
    | Tick(dt: real)
    | Read(data: Bytes)
    | EndRead             // end of input, or a read error
    | Get
    | Write
    | WriteFails
    | Flushed
    | FlushFails

  function Start(now: real): State {
    State(now, true, [], Getting, [], [])
  }

  predicate Enabled(s: State, step: Step) {
    match step
    case Tick(dt) => dt > 0.0
    case Read(data) => s.reading && 1 <= |data| <= CHUNK
    case EndRead => s.reading
    case Get => s.drainer.Getting? && s.queue != []
    case Write => s.drainer.Sleeping? && s.drainer.item.at <= s.now
    case WriteFails => s.drainer.Sleeping? && s.drainer.item.at <= s.now
    case Flushed => s.drainer.Flushing?
    case FlushFails => s.drainer.Flushing?
  }

  function Put(s: State, data: Option<Bytes>, delay: real): State {
    s.(queue := s.queue + [Item(s.now + delay, data)], fed := s.fed + [Item(s.now, data)])
  }

  function Next(s: State, step: Step, delay: real): State
    requires Enabled(s, step)
  {
    match step
    case Tick(dt) => s.(now := s.now + dt)
    case Read(data) => Put(s, Some(data), delay)
    case EndRead => Put(s, None, delay).(reading := false)
    case Get => s.(drainer := Sleeping(s.queue[0]), queue := s.queue[1..])
    case Write =>
      var data := s.drainer.item.data;
      s.(out := s.out + [Item(s.now, data)], drainer := if data == None then Finished else Flushing)
    case WriteFails => s.(drainer := Finished)
    case Flushed => s.(drainer := Getting)
    case FlushFails => s.(drainer := Finished)
  }

  /** The states a run of steps can end in. */
  ghost predicate Runs(s: State, steps: seq<Step>, delay: real, s': State)
    decreases |steps|
  {
    if steps == [] then s' == s
    else Enabled(s, steps[0]) && Runs(Next(s, steps[0], delay), steps[1..], delay, s')
  }

  // ---- what every run keeps ----

  /** How many items the drainer has taken from the queue. */
  function Taken(s: State): int { |s.fed| - |s.queue| }

  /** The queue holds the items still to be taken, in order, each due one delay after it arrived. */
  ghost predicate QueueIsFed(s: State, delay: real) {
    && 0 <= Taken(s)
    && forall i :: 0 <= i < |s.queue| ==> s.queue[i] == Due(s.fed[Taken(s) + i], delay)
  }

  function Due(item: Item, delay: real): Item { Item(item.at + delay, item.data) }

  /** What left is what arrived, in order, and no earlier than one delay after. */
  ghost predicate Delivered(s: State, delay: real) {
    && |s.out| <= |s.fed|
    && forall i :: 0 <= i < |s.out| ==> s.out[i].data == s.fed[i].data && s.fed[i].at + delay <= s.out[i].at <= s.now
  }

  ghost predicate InHand(s: State, delay: real) {
    match s.drainer
    case Sleeping(item) => Taken(s) == |s.out| + 1 && item == Due(s.fed[|s.out|], delay)
    case Finished => true
    case _ => Taken(s) == |s.out|
  }

  /** The end of the stream comes once, last, and stops the reader; emitting it stops the drainer. */
  ghost predicate EndIsLast(s: State) {
    && (forall i :: 0 <= i < |s.fed| && s.fed[i].data == None ==> i == |s.fed| - 1 && !s.reading)
    && (forall i :: 0 <= i < |s.out| && s.out[i].data == None ==> s.drainer.Finished?)
    && (!s.reading ==> s.fed != [] && s.fed[|s.fed| - 1].data == None)
  }

  ghost predicate Inv(s: State, delay: real) {
    QueueIsFed(s, delay) && Delivered(s, delay) && InHand(s, delay) && EndIsLast(s)
  }

  lemma InvStep(s: State, step: Step, delay: real)
    requires Inv(s, delay) && Enabled(s, step)
    ensures Inv(Next(s, step, delay), delay)
  {
  }

  lemma {:induction false} InvRun(s: State, steps: seq<Step>, delay: real, s': State)
    requires Inv(s, delay) && Runs(s, steps, delay, s')
    ensures Inv(s', delay)
    decreases |steps|
  {
    hide Inv;
    if steps != [] {
      InvStep(s, steps[0], delay);
      InvRun(Next(s, steps[0], delay), steps[1..], delay, s');
    }
  }

  function Data(items: seq<Item>): (d: seq<Bytes>)
    ensures |d| == |items|
    ensures forall i :: 0 <= i < |d| ==> d[i] == if items[i].data.Some? then items[i].data.value else []
  {
    seq(|items|, i requires 0 <= i < |items| => if items[i].data.Some? then items[i].data.value else [])
  }

  /** What the steps of a run deliver to the reader, and when: each chunk as it is read, and the end. */
  function Arriving(now: real, steps: seq<Step>): seq<Item>
    decreases |steps|
  {
    if steps == [] then []
    else
      var later := Arriving(if steps[0].Tick? then now + steps[0].dt else now, steps[1..]);
      match steps[0]
      case Read(data) => [Item(now, Some(data))] + later
      case EndRead => [Item(now, None)] + later
      case _ => later
  }

  lemma {:induction false} FedIsArriving(s: State, steps: seq<Step>, delay: real, s': State)
    requires Runs(s, steps, delay, s')
    ensures s'.fed == s.fed + Arriving(s.now, steps)
    decreases |steps|
  {
    if steps == [] {
      Empty(s.fed);
    } else {
      var s1 := Next(s, steps[0], delay);
      FedIsArriving(s1, steps[1..], delay, s');
      var later := Arriving(s1.now, steps[1..]);
      assert steps[0].Read? ==> s1.fed == s.fed + [Item(s.now, Some(steps[0].data))];
      assert steps[0].EndRead? ==> s1.fed == s.fed + [Item(s.now, None)];
      Associative(s.fed, [Item(s.now, if steps[0].Read? then Some(steps[0].data) else None)], later);
    }
  }

  /**
   In every run, whatever fails: what was read is what arrived; the bytes written are a prefix of the bytes read, nothing leaves
   before its arrival plus the delay, and an emitted EOF is the last thing out, after all that was read.
   The drainer waits for more only while the reader still reads.
   */
  lemma DeliveryIsFaithful(now: real, steps: seq<Step>, delay: real, s: State)
    requires Runs(Start(now), steps, delay, s)
    ensures s.fed == Arriving(now, steps) && Flatten(Data(s.out)) <= Flatten(Data(s.fed))
    ensures |s.out| <= |s.fed| && forall i :: 0 <= i < |s.out| ==> s.out[i].at >= s.fed[i].at + delay
    ensures forall i :: 0 <= i < |s.out| && s.out[i].data == None ==> |s.out| == |s.fed| == i + 1 && !s.reading
    ensures s.drainer.Getting? && s.queue == [] ==> s.reading
  {
    InvRun(Start(now), steps, delay, s);
    FedIsArriving(Start(now), steps, delay, s);
    Empty(Arriving(now, steps));
    hide Inv, Runs, Arriving, Flatten, Data;
    InvIsFaithful(s, delay);
  }

  lemma InvIsFaithful(s: State, delay: real)
    requires Inv(s, delay)
    ensures Flatten(Data(s.out)) <= Flatten(Data(s.fed))
    ensures |s.out| <= |s.fed| && forall i :: 0 <= i < |s.out| ==> s.out[i].at >= s.fed[i].at + delay
    ensures forall i :: 0 <= i < |s.out| && s.out[i].data == None ==> |s.out| == |s.fed| == i + 1 && !s.reading
    ensures s.drainer.Getting? && s.queue == [] ==> s.reading
  {
    hide Flatten;
    assert Data(s.out) == Data(s.fed)[..|s.out|];
    FlattenPrefix(Data(s.fed), |s.out|);
  }

  // ---- prompt timers ----

  /**
   A prompt step: writes succeed, and time never passes a moment at which the drainer has something
   to do.
   */
  ghost predicate Prompt(s: State, step: Step) {
    && !step.WriteFails? && !step.FlushFails?
    && (step.Tick? ==>
          match s.drainer
          case Getting => s.queue == []
          case Sleeping(item) => s.now + step.dt <= item.at
          case Flushing => false
          case Finished => true)
  }

  ghost predicate RunsPromptly(s: State, steps: seq<Step>, delay: real, s': State)
    decreases |steps|
  {
    if steps == [] then s' == s
    else Enabled(s, steps[0]) && Prompt(s, steps[0]) && RunsPromptly(Next(s, steps[0], delay), steps[1..], delay, s')
  }

  /** When an item should leave: one delay after it arrived, or at once for a negative delay. */
  function Release(item: Item, delay: real): real {
    if delay > 0.0 then item.at + delay else item.at
  }

  ghost predicate OnTime(s: State, delay: real) {
    && |s.out| <= |s.fed|
    && (forall i :: 0 <= i < |s.out| ==> s.out[i] == Item(Release(s.fed[i], delay), s.fed[i].data))
    && (forall i :: |s.out| <= i < |s.fed| ==> Release(s.fed[i], delay) >= s.now)
  }

  ghost predicate Arrivals(s: State) {
    && (forall i :: 0 <= i < |s.fed| ==> s.fed[i].at <= s.now)
    && (forall i, j :: 0 <= i <= j < |s.fed| ==> s.fed[i].at <= s.fed[j].at)
  }

  ghost predicate PromptInv(s: State, delay: real) {
    Inv(s, delay) && OnTime(s, delay) && Arrivals(s) && (s.drainer.Finished? ==> |s.out| == |s.fed| && !s.reading)
  }

  lemma PromptStep(s: State, step: Step, delay: real)
    requires PromptInv(s, delay) && Enabled(s, step) && Prompt(s, step)
    ensures PromptInv(Next(s, step, delay), delay)
  {
    InvStep(s, step, delay);
  }

  lemma {:induction false} PromptRun(s: State, steps: seq<Step>, delay: real, s': State)
    requires PromptInv(s, delay) && RunsPromptly(s, steps, delay, s')
    ensures PromptInv(s', delay)
    decreases |steps|
  {
    hide PromptInv;
    if steps != [] {
      PromptStep(s, steps[0], delay);
      PromptRun(Next(s, steps[0], delay), steps[1..], delay, s');
    }
  }

  lemma {:induction false} PromptRunIsRun(s: State, steps: seq<Step>, delay: real, s': State)
    requires RunsPromptly(s, steps, delay, s')
    ensures Runs(s, steps, delay, s')
    decreases |steps|
  {
    if steps != [] {
      PromptRunIsRun(Next(s, steps[0], delay), steps[1..], delay, s');
    }
  }

  /**
   In every prompt run, however many chunks are queued at once, each chunk and the EOF leave exactly
   at their release time, everything whose release time has passed has left, and a drainer that has
   finished has written all that arrived, up to the EOF.
   */
  lemma PromptDelivery(now: real, steps: seq<Step>, delay: real, s: State)
    requires RunsPromptly(Start(now), steps, delay, s)
    ensures s.fed == Arriving(now, steps) && |s.out| <= |s.fed|
    ensures s.drainer.Finished? ==> |s.out| == |s.fed| && !s.reading
    ensures forall i :: 0 <= i < |s.out| ==> s.out[i] == Item(Release(s.fed[i], delay), s.fed[i].data)
    ensures forall i :: 0 <= i < |s.fed| && Release(s.fed[i], delay) < s.now ==> i < |s.out|
  {
    PromptRun(Start(now), steps, delay, s);
    PromptRunIsRun(Start(now), steps, delay, s);
    FedIsArriving(Start(now), steps, delay, s);
    hide Runs, RunsPromptly;
    Empty(Arriving(now, steps));
  }

  // ---- the two coroutines over the shared queue ----

  /** The queue, the writer and the two program counters of one `_pump`, updated in place. */
  class Direction {
    const delay: real
    var now: real
    var reading: bool
    var queue: seq<Item>
    var drainer: Drainer
    ghost var fed: seq<Item>
    var out: seq<Item>

    ghost function View(): State
      reads this
    {
      State(now, reading, queue, drainer, fed, out)
    }

    constructor (now: real, delay: real)
      ensures View() == Start(now) && this.delay == delay
      ensures Inv(View(), delay)
    {
      this.now, this.delay := now, delay;
      reading, queue, drainer, fed, out := true, [], Getting, [], [];
    }

    /** The reader after `read` returns: queue the chunk, or the end marker when it is empty. */
    method Read(data: Bytes)
      requires reading && |data| <= CHUNK && Inv(View(), delay)
      modifies this
      ensures View() == Next(old(View()), if data == [] then EndRead else Step.Read(data), delay)
      ensures Inv(View(), delay)
    {
      ghost var step := if data == [] then EndRead else Step.Read(data);
      InvStep(View(), step, delay);
      var item := if data == [] then None else Some(data);
      queue := queue + [Item(now + delay, item)];
      fed := fed + [Item(now, item)];
      reading := data != [];
    }

    /** The drainer takes the head of the queue and works out how long to wait. */
    method Get() returns (wait: real)
      requires drainer.Getting? && queue != [] && Inv(View(), delay)
      modifies this
      ensures View() == Next(old(View()), Step.Get, delay) && Inv(View(), delay)
      ensures wait == old(queue[0].at) - now
    {
      InvStep(View(), Step.Get, delay);
      wait := queue[0].at - now;
      drainer, queue := Sleeping(queue[0]), queue[1..];
    }

    /** The drainer after its wait: write the chunk, or the EOF and stop. */
    method Write(ok: bool)
      requires drainer.Sleeping? && drainer.item.at <= now && Inv(View(), delay)
      modifies this
      ensures View() == Next(old(View()), if ok then Step.Write else WriteFails, delay)
      ensures Inv(View(), delay)
    {
      ghost var step := if ok then Step.Write else WriteFails;
      InvStep(View(), step, delay);
      if ok {
        out := out + [Item(now, drainer.item.data)];
      }
      drainer := if ok && drainer.item.data != None then Flushing else Finished;
    }

    /** The drainer after flushing: round again, or stop on an error. */
    method Flush(ok: bool)
      requires drainer.Flushing? && Inv(View(), delay)
      modifies this
      ensures View() == Next(old(View()), if ok then Flushed else FlushFails, delay)
      ensures Inv(View(), delay)
    {
      ghost var step := if ok then Flushed else FlushFails;
      InvStep(View(), step, delay);
      drainer := if ok then Getting else Finished;
    }
  }
}
