/** Settling before a tree walk: wait for quiet on the accessibility bus, within a total cap. */
module Settle {
  import opened Results

  const SETTLE_QUIET_MIN_MS := 10
  const SETTLE_QUIET_MAX_MS := 1_000
  const SETTLE_TOTAL_CAP_MS := 3_000

  function Apart(x: int, y: int): nat { if x <= y then y - x else x - y }

  /** The nearest window between 10 ms and a second. */
  function Clamp(quietMs: nat): (q: nat)
    ensures 10 <= q <= 1000
    ensures forall other :: 10 <= other <= 1000 ==> Apart(q, quietMs) <= Apart(other, quietMs)
  {
    if quietMs < SETTLE_QUIET_MIN_MS then SETTLE_QUIET_MIN_MS
    else if quietMs > SETTLE_QUIET_MAX_MS then SETTLE_QUIET_MAX_MS
    else quietMs
  }

  ghost predicate Ordered(events: seq<int>) {
    forall i, j :: 0 <= i <= j < |events| ==> events[i] <= events[j]
  }

  /** Some activity in the `quiet` ms up to time t: an event, or the start itself. */
  ghost predicate Active(start: int, quiet: nat, events: seq<int>, t: int) {
    t < start + quiet || exists i :: 0 <= i < |events| && t - quiet < events[i] <= t
  }

  /** The wait may stop at time t: the bus has been quiet, the cap is reached, or the event stream has ended. */
  ghost predicate MayStop(start: int, quiet: nat, events: seq<int>, ends: Option<int>, t: int) {
    !Active(start, quiet, events, t) || t >= start + SETTLE_TOTAL_CAP_MS || (ends.Some? && t >= ends.value)
  }

  /**
   The loop of `settle` after its drain, on a bus whose events arrive at the given times from the start
   on, and whose stream may end after the last of them: it stops at the first moment it may.
   */
  method SettleLoop(start: int, quietMs: nat, events: seq<int>, ends: Option<int>) returns (end: int)
    requires Ordered(events) && (events != [] ==> start <= events[0])
    requires ends.Some? ==> start <= ends.value && (events != [] ==> events[|events| - 1] <= ends.value)
    ensures start <= end <= start + 3000
    ensures MayStop(start, Clamp(quietMs), events, ends, end)
    ensures forall t :: start <= t < end ==> !MayStop(start, Clamp(quietMs), events, ends, t)
  {
    var quiet := Clamp(quietMs);
    var deadline := start + SETTLE_TOTAL_CAP_MS;
    var lastEvent, now, next, ended := start, start, 0, false;
    while !ended && now < deadline && now - lastEvent < quiet
      invariant start <= lastEvent <= now <= deadline && 0 <= next <= |events|
      invariant lastEvent == if next == 0 then start else events[next - 1]
      invariant next < |events| ==> now <= events[next] && lastEvent <= events[next]
      invariant ended || now == lastEvent || now == deadline || now == lastEvent + quiet
      invariant now - lastEvent == quiet && !ended ==> next < |events| ==> now < events[next]
      invariant if ended then ends == Some(now) else ends.Some? ==> now <= ends.value
      invariant forall t :: start <= t < now ==> !MayStop(start, quiet, events, ends, t)
      decreases !ended, deadline - now, |events| - next
    {
      var wait := if quiet - (now - lastEvent) < deadline - now then quiet - (now - lastEvent) else deadline - now;
      ghost var before := now;
      if next < |events| && events[next] <= now + wait {
        StaysActive(start, quiet, events, ends, next, lastEvent, before, events[next]);
        now, lastEvent, next := events[next], events[next], next + 1;
      } else if ends.Some? && ends.value <= now + wait {
        StaysActive(start, quiet, events, ends, next, lastEvent, before, ends.value);
        now, ended := ends.value, true;
      } else {
        StaysActive(start, quiet, events, ends, next, lastEvent, before, now + wait);
        now := now + wait;
      }
    }
    if now < deadline && !ended {
      NowQuiet(start, quiet, events, next, lastEvent, now);
    }
    end := now;
  }

  /** Until `quiet` ms after the last event the bus counts as active. */
  lemma StaysActive(start: int, quiet: nat, events: seq<int>, ends: Option<int>, next: nat, lastEvent: int, now: int, until: int)
    requires next <= |events| && lastEvent == if next == 0 then start else events[next - 1]
    requires lastEvent <= now && until <= lastEvent + quiet && until <= start + SETTLE_TOTAL_CAP_MS
    requires ends.Some? ==> until <= ends.value
    ensures forall t :: now <= t < until ==> !MayStop(start, quiet, events, ends, t)
  {
    forall t | now <= t < until ensures !MayStop(start, quiet, events, ends, t) {
      assert next > 0 ==> t - quiet < events[next - 1] <= t;
    }
  }

  lemma NowQuiet(start: int, quiet: nat, events: seq<int>, next: nat, lastEvent: int, now: int)
    requires Ordered(events) && next <= |events| && lastEvent == if next == 0 then start else events[next - 1]
    requires start <= lastEvent && now >= lastEvent + quiet && (next < |events| ==> now < events[next])
    ensures !Active(start, quiet, events, now)
  {
  }
}
