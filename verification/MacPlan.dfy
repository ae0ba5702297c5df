/** Pointer, wheel and text actions on macOS. */
module MacPlan {
  import opened Results
  import opened Reals
  import opened Sequences
  import opened MacText
  import opened MacKeys

  datatype Target = PointPx(x: real, y: real) | PointNorm(x: real, y: real) | ElementRef(id: string)

  datatype Verb = Moving | Clicking(right: bool) | DoubleClick | Scrolling | Dragging | Half(down: bool) | TypeText | KeyVerb
                | Unplanned(name: string)

  /** The fields of an action that the planner reads; `mods` and `key` are the combo `keys`, already split. */
  datatype Action = Action(
    verb: Verb, target: Option<Target>, to: Option<Target>, button: Option<string>,
    dx: Option<real>, dy: Option<real>, text: Option<string>, keys: Option<(seq<string>, string)>)

  datatype Error = MissingTarget | OutOfRange | Unresolved | ZeroScroll | MissingTo | BadButton | SamePoint
                 | MissingText | MissingKeys | BadCombo(error: PlanError) | NotPlanned(name: string)

  const DRAG_STEPS := 8

  // ---- targets ----

  /** Rounding half away from zero, for non-negative numbers, then the saturating cast to i16. */
  function RoundI16(v: real): int {
    var r := (v + 0.5).Floor;
    if r > 32767 then 32767 else r
  }

  function NormPx(n: real, dim: nat): int {
    RoundI16(n * (if dim == 0 then 0 else dim - 1) as real)
  }

  function ResolvePx(target: Option<Target>, w: nat, h: nat): Result<(real, real), Error> {
    match target
    case None => Err(MissingTarget)
    case Some(PointPx(x, y)) =>
      if x < 0.0 || y < 0.0 || x >= w as real || y >= h as real then Err(OutOfRange) else Ok((x, y))
    case Some(PointNorm(x, y)) =>
      if !(0.0 <= x <= 1.0) || !(0.0 <= y <= 1.0) then Err(OutOfRange)
      else Ok((NormPx(x, w) as real, NormPx(y, h) as real))
    case Some(ElementRef(_)) => Err(Unresolved)
  }

  predicate OnScreen(x: real, y: real, w: nat, h: nat) {
    0.0 <= x < w as real && 0.0 <= y < h as real
  }

  lemma NormPxInRange(n: real, dim: nat)
    requires 0.0 <= n <= 1.0 && dim > 0
    ensures 0 <= NormPx(n, dim) < dim
  {
    var top := (dim - 1) as real;
    ProductSign(n, top);
    ProductSign(1.0 - n, top);
    RoundInRange(n * top, dim - 1);
  }

  lemma RoundInRange(v: real, top: nat)
    requires 0.0 <= v <= top as real
    ensures 0 <= RoundI16(v) <= top
  {
  }

  /** A resolved target is on the screen, whatever its kind. */
  lemma ResolvedOnScreen(target: Option<Target>, w: nat, h: nat)
    requires w > 0 && h > 0
    ensures ResolvePx(target, w, h).Ok? ==>
              OnScreen(ResolvePx(target, w, h).value.0, ResolvePx(target, w, h).value.1, w, h)
  {
    if target.Some? && target.value.PointNorm? && ResolvePx(target, w, h).Ok? {
      NormPxInRange(target.value.x, w);
      NormPxInRange(target.value.y, h);
    }
  }

  // ---- where a target is ----

  /** A whole coordinate for a fraction of the way to the last pixel: the nearest, a half going up, as far as 16 signed bits go. */
  predicate Near(px: real, n: real, dim: nat) {
    var v := n * (if dim == 0 then 0 else dim - 1) as real;
    px == px.Floor as real && if v < 32767.5 then -0.5 < px - v <= 0.5 else px == 32767.0
  }

  /** The point is where the target says. */
  predicate Lands(p: (real, real), target: Target, w: nat, h: nat) {
    match target
    case PointPx(x, y) => p == (x, y) && 0.0 <= x < w as real && 0.0 <= y < h as real
    case PointNorm(x, y) => 0.0 <= x <= 1.0 && 0.0 <= y <= 1.0 && Near(p.0, x, w) && Near(p.1, y, h)
    case ElementRef(_) => false
  }

  /** The targets that name a point. */
  predicate Reachable(target: Target, w: nat, h: nat) {
    match target
    case PointPx(x, y) => 0.0 <= x < w as real && 0.0 <= y < h as real
    case PointNorm(x, y) => 0.0 <= x <= 1.0 && 0.0 <= y <= 1.0
    case ElementRef(_) => false
  }

  /** A target resolves exactly when it names a point, and to that point; otherwise the error says what is wrong with it. */
  lemma ResolvesIff(target: Option<Target>, w: nat, h: nat)
    ensures var r := ResolvePx(target, w, h);
            && (r.Ok? <==> target.Some? && Reachable(target.value, w, h))
            && (r.Ok? ==> Lands(r.value, target.value, w, h))
            && (r == Err(MissingTarget) <==> target.None?)
            && (r == Err(Unresolved) <==> target.Some? && target.value.ElementRef?)
  {
    if target.Some? && target.value.PointNorm? && Reachable(target.value, w, h) {
      NormIsNear(target.value.x, w);
      NormIsNear(target.value.y, h);
      hide NormPx, Near;
    }
  }

  lemma NormIsNear(n: real, dim: nat)
    requires 0.0 <= n
    ensures Near(NormPx(n, dim) as real, n, dim)
  {
    var top := (if dim == 0 then 0 else dim - 1) as real;
    ProductSign(n, top);
    RoundIsNear(n * top);
  }

  lemma RoundIsNear(v: real)
    requires v >= 0.0
    ensures var r := RoundI16(v) as real;
            r.Floor as real == r && if v < 32767.5 then -0.5 < r - v <= 0.5 else r == 32767.0
  {
    var f := (v + 0.5).Floor;
    assert f as real <= v + 0.5 < f as real + 1.0;
    assert (RoundI16(v) as real).Floor == RoundI16(v);
  }

  /** There is only one such point. */
  lemma LandsOnce(p: (real, real), q: (real, real), target: Target, w: nat, h: nat)
    requires Lands(p, target, w, h) && Lands(q, target, w, h)
    ensures p == q
  {
    if target.PointNorm? {
      NearOnce(p.0, q.0, target.x, w);
      NearOnce(p.1, q.1, target.y, h);
    }
  }

  lemma NearOnce(px: real, qx: real, n: real, dim: nat)
    requires Near(px, n, dim) && Near(qx, n, dim)
    ensures px == qx
  {
    var v := n * (if dim == 0 then 0 else dim - 1) as real;
    assert (px.Floor - qx.Floor) as real == px - qx;
  }

  /**
   A normalized coordinate is within half a pixel of its fraction of the screen exactly when that lies
   within 16 signed bits; beyond, as on a screen wider than 32768 pixels, every target falls on the same pixel.
   */
  lemma NormIsExactIff(n: real, dim: nat)
    requires 0.0 <= n <= 1.0 && dim > 0
    ensures var v := n * (dim - 1) as real;
            && (-0.5 <= NormPx(n, dim) as real - v <= 0.5 <==> v <= 32767.5)
            && (v > 32767.5 ==> NormPx(n, dim) == 32767)
  {
    NormIsNear(n, dim);
  }

  // ---- plans ----

  function Click(right: bool, x: real, y: real, clicks: int): seq<Input> {
    [Button(right, true, x, y, clicks), Button(right, false, x, y, clicks)]
  }

  /** The i-th of the eight drag motions. */
  function DragPoint(a: (real, real), b: (real, real), i: int): Input {
    var t := i as real / DRAG_STEPS as real;
    Drag(Between(a.0, b.0, t), Between(a.1, b.1, t))
  }

  function Between(a: real, b: real, t: real): real {
    a + (b - a) * t
  }

  function DragPath(a: (real, real), b: (real, real), n: nat): seq<Input> {
    if n == 0 then [] else DragPath(a, b, n - 1) + [DragPoint(a, b, n)]
  }

  function DragPlan(a: (real, real), b: (real, real)): seq<Input> {
    [Move(a.0, a.1), Button(false, true, a.0, a.1, 1)] + DragPath(a, b, DRAG_STEPS) + [Button(false, false, b.0, b.1, 1)]
  }

  /** Truncation of a wheel delta toward zero, clamped to 32 bits, with the sign flipped. */
  function Wheel(d: real): int {
    var v := -d;
    var t := if v >= 0.0 then v.Floor else -((-v).Floor);
    if t < -0x8000_0000 then -0x8000_0000 else if t > 0x7FFF_FFFF then 0x7FFF_FFFF else t
  }

  /** The drag branch: down at the start, eight motions, up at the end. */
  method PlanDrag(a: (real, real), b: (real, real)) returns (plan: seq<Input>)
    ensures plan == DragPlan(a, b)
  {
    plan := [Move(a.0, a.1), Button(false, true, a.0, a.1, 1)];
    ghost var start := plan;
    for i := 1 to DRAG_STEPS + 1
      invariant plan == start + DragPath(a, b, i - 1)
    {
      plan := plan + [DragPoint(a, b, i)];
    }
    plan := plan + [Button(false, false, b.0, b.1, 1)];
  }

  predicate LeftButton(b: Option<string>) { b == None || b == Some("left") }

  /** `plan_action`: the input events of one action, or why there are none. */
  function Plan(a: Action, w: nat, h: nat): Result<seq<Input>, Error> {
    match a.verb
    case Moving =>
      (match ResolvePx(a.target, w, h) case Err(e) => Err(e) case Ok(p) => Ok([Move(p.0, p.1)]))
    case Clicking(right) =>
      (match ResolvePx(a.target, w, h) case Err(e) => Err(e)
       case Ok(p) => Ok([Move(p.0, p.1)] + Click(right, p.0, p.1, 1)))
    case DoubleClick =>
      (match ResolvePx(a.target, w, h) case Err(e) => Err(e)
       case Ok(p) => Ok([Move(p.0, p.1)] + Click(false, p.0, p.1, 1) + Click(false, p.0, p.1, 2)))
    case Scrolling =>
      (match ResolvePx(a.target, w, h) case Err(e) => Err(e)
       case Ok(p) =>
         var dx := if a.dx.Some? then a.dx.value else 0.0;
         var dy := if a.dy.Some? then a.dy.value else 0.0;
         if dx == 0.0 && dy == 0.0 then Err(ZeroScroll) else Ok([Move(p.0, p.1), Scroll(Wheel(dy), Wheel(dx))]))
    case Dragging =>
      (match ResolvePx(a.target, w, h) case Err(e) => Err(e)
       case Ok(p) =>
         if a.to == None then Err(MissingTo)
         else match ResolvePx(a.to, w, h)
           case Err(e) => Err(e)
           case Ok(q) =>
             if !LeftButton(a.button) then Err(BadButton)
             else if p == q then Err(SamePoint)
             else Ok(DragPlan(p, q)))
    case Half(down) => PlanHalf(a, w, h, down)
    case TypeText =>
      (match a.text case None => Err(MissingText) case Some(text) => Ok(Texts(Chunks(text))))
    case KeyVerb =>
      (match a.keys case None => Err(MissingKeys)
       case Some((mods, key)) => match KeyPlan(mods, key) case Err(e) => Err(BadCombo(e)) case Ok(plan) => Ok(plan))
    case Unplanned(name) => Err(NotPlanned(name))
  }

  /** The decomposed button halves: at a target, or at the pointer's current position. */
  function PlanHalf(a: Action, w: nat, h: nat, down: bool): Result<seq<Input>, Error> {
    if !LeftButton(a.button) && a.button != Some("right") then Err(BadButton)
    else
      var right := a.button == Some("right");
      if a.target == None then Ok([ButtonHere(right, down, 1)])
      else match ResolvePx(a.target, w, h)
        case Err(e) => Err(e)
        case Ok(p) => Ok([Move(p.0, p.1), Button(right, down, p.0, p.1, 1)])
  }

  function Texts(chunks: seq<seq<Unit>>): (t: seq<Input>)
    ensures |t| == |chunks| && forall i :: 0 <= i < |t| ==> t[i] == Text(chunks[i])
  {
    seq(|chunks|, i requires 0 <= i < |chunks| => Text(chunks[i]))
  }

  /**
   `plan_action` as the code runs it. From all-released, an accepted plan releases all keys and all
   buttons but that of `mouse_down`, and stays on the screen.
   */
  method PlanAction(a: Action, w: nat, h: nat) returns (r: Result<seq<Input>, Error>)
    ensures r == Plan(a, w, h) && (r.Ok? <==> Plannable(a, w, h))
    ensures r.Ok? ==> Replay({}, r.value) == {} && ReplayButtons({}, r.value) == LeftDown(a)
    ensures r.Ok? && w > 0 && h > 0 ==> AllInScreen(r.value, w, h)
  {
    r := PlanVerb(a, w, h);
    hide *;
    PlannedIff(a, w, h);
    if r.Ok? {
      PlanIsBalanced(a, w, h);
    }
  }

  method PlanVerb(a: Action, w: nat, h: nat) returns (r: Result<seq<Input>, Error>)
    ensures r == Plan(a, w, h)
  {
    hide KeyPlan, Chunks, DragPlan, ResolvePx, Wheel;
    match a.verb {
      case KeyVerb =>
        if a.keys == None {
          return Err(MissingKeys);
        }
        var plan := PlanKeyCombo(a.keys.value.0, a.keys.value.1);
        return match plan case Ok(p) => Ok(p) case Err(e) => Err(BadCombo(e));
      case TypeText =>
        if a.text == None {
          return Err(MissingText);
        }
        var chunks := PlanTextChunks(a.text.value);
        return Ok(Texts(chunks));
      case Unplanned(name) =>
        return Err(NotPlanned(name));
      case Half(down) =>
        return PlanHalf(a, w, h, down);
      case _ =>
    }
    var start := ResolvePx(a.target, w, h);
    if start.Err? {
      return Err(start.error);
    }
    var (x, y) := start.value;
    match a.verb {
      case Moving =>
        return Ok([Move(x, y)]);
      case Clicking(right) =>
        return Ok([Move(x, y)] + [Button(right, true, x, y, 1), Button(right, false, x, y, 1)]);
      case DoubleClick =>
        var plan := [Move(x, y)];
        for clicks := 1 to 3
          invariant plan == if clicks == 1 then [Move(x, y)]
                            else if clicks == 2 then [Move(x, y)] + Click(false, x, y, 1)
                            else [Move(x, y)] + Click(false, x, y, 1) + Click(false, x, y, 2)
        {
          plan := plan + [Button(false, true, x, y, clicks), Button(false, false, x, y, clicks)];
        }
        return Ok(plan);
      case Scrolling =>
        var dx := if a.dx.Some? then a.dx.value else 0.0;
        var dy := if a.dy.Some? then a.dy.value else 0.0;
        if dx == 0.0 && dy == 0.0 {
          return Err(ZeroScroll);
        }
        return Ok([Move(x, y), Scroll(Wheel(dy), Wheel(dx))]);
      case Dragging =>
        if a.to == None {
          return Err(MissingTo);
        }
        var end := ResolvePx(a.to, w, h);
        if end.Err? {
          return Err(end.error);
        }
        if !LeftButton(a.button) {
          return Err(BadButton);
        }
        if start.value == end.value {
          return Err(SamePoint);
        }
        var plan := PlanDrag(start.value, end.value);
        return Ok(plan);
    }
  }

  // ---- what every plan keeps ----

  /** The mouse buttons down after an event (true is the right one). */
  function ButtonsAfter(down: set<bool>, e: Input): set<bool> {
    match e
    case Button(right, d, _, _, _) => if d then down + {right} else down - {right}
    case ButtonHere(right, d, _) => if d then down + {right} else down - {right}
    case _ => down
  }

  function ReplayButtons(down: set<bool>, plan: seq<Input>): set<bool> {
    if plan == [] then down else ButtonsAfter(ReplayButtons(down, plan[..|plan| - 1]), plan[|plan| - 1])
  }

  ghost predicate InScreen(e: Input, w: nat, h: nat) {
    (e.Move? || e.Button? || e.Drag?) ==> OnScreen(e.x, e.y, w, h)
  }

  ghost predicate AllInScreen(plan: seq<Input>, w: nat, h: nat) {
    forall i :: 0 <= i < |plan| ==> InScreen(plan[i], w, h)
  }

  /** The buttons a plan leaves down when it starts with none down. */
  function LeftDown(a: Action): set<bool> {
    if a.verb == Half(true) then {a.button == Some("right")} else {}
  }

  /**
   From all-released, every accepted plan releases all keys and, `mouse_down` apart, all buttons;
   `mouse_down` leaves exactly its own button down. Every coordinate is on the screen.
   */
  lemma PlanIsBalanced(a: Action, w: nat, h: nat)
    requires Plan(a, w, h).Ok?
    ensures Replay({}, Plan(a, w, h).value) == {}
    ensures ReplayButtons({}, Plan(a, w, h).value) == LeftDown(a)
    ensures w > 0 && h > 0 ==> AllInScreen(Plan(a, w, h).value, w, h)
  {
    var plan := Plan(a, w, h).value;
    hide Replay, ReplayButtons, AllInScreen;
    if a.verb.KeyVerb? {
      hide KeyPlan;
      KeysOnly(a.keys.value.0, a.keys.value.1, w, h);
    } else if a.verb.TypeText? {
      hide Chunks;
      NoButtonsOrKeys(plan);
    } else if a.verb.Dragging? {
      hide ResolvePx, DragPlan;
      DragReleases(ResolvePx(a.target, w, h).value, ResolvePx(a.to, w, h).value, w, h);
      if w > 0 && h > 0 {
        ResolvedOnScreen(a.target, w, h);
        ResolvedOnScreen(a.to, w, h);
      }
    } else {
      hide Plan;
      PointerReleases(a, w, h);
      PointerEvents(a, w, h);
    }
  }

  lemma KeysOnly(mods: seq<string>, key: string, w: nat, h: nat)
    requires KeyPlan(mods, key).Ok?
    ensures Replay({}, KeyPlan(mods, key).value) == {} && ReplayButtons({}, KeyPlan(mods, key).value) == {}
    ensures AllInScreen(KeyPlan(mods, key).value, w, h)
  {
    KeyPlanPresses(mods, key);
    hide KeyPlan, Replay, Bits;
    NoButtons(KeyPlan(mods, key).value);
  }

  lemma {:induction false} NoButtons(plan: seq<Input>)
    requires forall i :: 0 <= i < |plan| ==> !plan[i].Button? && !plan[i].ButtonHere?
    ensures ReplayButtons({}, plan) == {}
  {
    if plan != [] {
      NoButtons(plan[..|plan| - 1]);
    }
  }

  lemma {:induction false} NoKeys(plan: seq<Input>)
    requires forall i :: 0 <= i < |plan| ==> !plan[i].KeyEvent?
    ensures Replay({}, plan) == {}
  {
    if plan != [] {
      NoKeys(plan[..|plan| - 1]);
    }
  }

  lemma NoButtonsOrKeys(plan: seq<Input>)
    requires forall i :: 0 <= i < |plan| ==> plan[i].Text?
    ensures Replay({}, plan) == {} && ReplayButtons({}, plan) == {}
    ensures forall w, h :: AllInScreen(plan, w, h)
  {
    NoKeys(plan);
    NoButtons(plan);
  }

  lemma ButtonsAppend(down: set<bool>, plan: seq<Input>, e: Input)
    ensures ReplayButtons(down, plan + [e]) == ButtonsAfter(ReplayButtons(down, plan), e)
  {
    assert (plan + [e])[..|plan|] == plan;
  }

  lemma OneButton(down: set<bool>, e: Input)
    ensures ReplayButtons(down, [e]) == ButtonsAfter(down, e)
  {
    ButtonsAppend(down, [], e);
    assert [] + [e] == [e];
  }

  /** A click gives back the button it presses. */
  lemma ClickReleases(right: bool, x: real, y: real, clicks: int, before: seq<Input>)
    requires ReplayButtons({}, before) == {}
    ensures ReplayButtons({}, before + Click(right, x, y, clicks)) == {}
  {
    var down, up := Button(right, true, x, y, clicks), Button(right, false, x, y, clicks);
    ButtonsAppend({}, before, down);
    ButtonsAppend({}, before + [down], up);
    assert before + Click(right, x, y, clicks) == (before + [down]) + [up];
  }

  lemma MoveThen(x: real, y: real, e: Input)
    ensures ReplayButtons({}, [Move(x, y), e]) == ButtonsAfter({}, e)
  {
    OneButton({}, Move(x, y));
    ButtonsAppend({}, [Move(x, y)], e);
    assert [Move(x, y)] + [e] == [Move(x, y), e];
  }

  lemma PointerReleases(a: Action, w: nat, h: nat)
    requires Plan(a, w, h).Ok? && !a.verb.KeyVerb? && !a.verb.TypeText? && !a.verb.Dragging?
    ensures ReplayButtons({}, Plan(a, w, h).value) == LeftDown(a)
  {
    hide ResolvePx, ReplayButtons, Wheel;
    if a.verb.Half? && a.target == None {
      OneButton({}, Plan(a, w, h).value[0]);
    } else {
      var (x, y) := ResolvePx(a.target, w, h).value;
      OneButton({}, Move(x, y));
      match a.verb {
        case Clicking(right) => ClickReleases(right, x, y, 1, [Move(x, y)]);
        case DoubleClick =>
          ClickReleases(false, x, y, 1, [Move(x, y)]);
          ClickReleases(false, x, y, 2, [Move(x, y)] + Click(false, x, y, 1));
        case Scrolling => MoveThen(x, y, Plan(a, w, h).value[1]);
        case Half(down) => MoveThen(x, y, Plan(a, w, h).value[1]);
        case _ =>
      }
    }
  }

  /** The button a pointer verb asks for: true is the right one. */
  predicate WantsRight(a: Action) { a.verb == Clicking(true) || (a.verb.Half? && a.button == Some("right")) }

  /** How often each verb presses and releases. */
  function ButtonCount(a: Action, down: bool): nat {
    match a.verb
    case Clicking(_) => 1
    case DoubleClick => 2
    case Half(d) => if d == down then 1 else 0
    case _ => 0
  }

  function CountButtons(plan: seq<Input>, down: bool): nat {
    if plan == [] then 0
    else
      var e := plan[|plan| - 1];
      CountButtons(plan[..|plan| - 1], down) + if IsButton(e, down) then 1 else 0
  }

  /** Pressed or released at the target, or where the pointer is when there is none. */
  ghost predicate Aimed(e: Input, a: Action, w: nat, h: nat) {
    match e
    case Move(x, y) => a.target.Some? && Lands((x, y), a.target.value, w, h)
    case Button(right, _, x, y, clicks) =>
      && a.target.Some? && Lands((x, y), a.target.value, w, h) && right == WantsRight(a)
      && (clicks == 1 || (clicks == 2 && a.verb.DoubleClick?))
    case ButtonHere(right, _, clicks) => a.target.None? && right == WantsRight(a) && clicks == 1
    case Scroll(dy, dx) => a.verb.Scrolling? && Opposed(dy, a.dy) && Opposed(dx, a.dx)
    case _ => false
  }

  /** The wheel moves against the delta, by its whole part, as far as 32 bits go. */
  ghost predicate Opposed(wheel: int, delta: Option<real>) {
    var d := if delta.Some? then delta.value else 0.0;
    && -0x8000_0000 <= wheel <= 0x7FFF_FFFF
    && (-2147483648.0 < d <= 2147483648.0 ==> -1.0 < wheel as real + d < 1.0)
    && (d >= 0.0 ==> wheel <= 0) && (d <= 0.0 ==> wheel >= 0)
    && (d > 2147483648.0 ==> wheel == -0x8000_0000) && (d <= -2147483648.0 ==> wheel == 0x7FFF_FFFF)
  }

  lemma WheelOpposes(delta: Option<real>)
    ensures Opposed(Wheel(if delta.Some? then delta.value else 0.0), delta)
  {
    var v := -(if delta.Some? then delta.value else 0.0);
    assert v.Floor as real <= v < v.Floor as real + 1.0;
    assert (-v).Floor as real <= -v < (-v).Floor as real + 1.0;
  }

  /** A pointer plan goes to the target first and does what its verb says there, the right number of times. */
  lemma PointerAims(a: Action, w: nat, h: nat)
    requires Plan(a, w, h).Ok? && !a.verb.KeyVerb? && !a.verb.TypeText? && !a.verb.Dragging?
    ensures var plan := Plan(a, w, h).value;
            && (a.target.Some? ==> plan[0].Move?)
            && (forall i :: 0 <= i < |plan| ==> Aimed(plan[i], a, w, h))
            && CountButtons(plan, true) == ButtonCount(a, true) && CountButtons(plan, false) == ButtonCount(a, false)
  {
    ResolvesIff(a.target, w, h);
    WheelOpposes(a.dx);
    WheelOpposes(a.dy);
    hide ResolvePx, Wheel, Opposed, Lands, Reachable;
    ButtonsOf(Plan(a, w, h).value, true);
    ButtonsOf(Plan(a, w, h).value, false);
    hide CountButtons;
  }

  /** Counting in plans of at most five events. */
  lemma ButtonsOf(plan: seq<Input>, down: bool)
    ensures |plan| <= 5 ==>
              CountButtons(plan, down) ==
                (if |plan| > 0 && IsButton(plan[0], down) then 1 else 0) + (if |plan| > 1 && IsButton(plan[1], down) then 1 else 0)
                + (if |plan| > 2 && IsButton(plan[2], down) then 1 else 0) + (if |plan| > 3 && IsButton(plan[3], down) then 1 else 0)
                + (if |plan| > 4 && IsButton(plan[4], down) then 1 else 0)
  {
    if 0 < |plan| <= 5 {
      ButtonsOf(plan[..|plan| - 1], down);
    }
  }

  predicate IsButton(e: Input, down: bool) { (e.Button? || e.ButtonHere?) && e.down == down }

  /** Pointer plans hold no key events, and all their coordinates are the target's. */
  lemma PointerEvents(a: Action, w: nat, h: nat)
    requires Plan(a, w, h).Ok? && !a.verb.KeyVerb? && !a.verb.TypeText? && !a.verb.Dragging?
    ensures Replay({}, Plan(a, w, h).value) == {}
    ensures w > 0 && h > 0 ==> AllInScreen(Plan(a, w, h).value, w, h)
  {
    if w > 0 && h > 0 {
      ResolvedOnScreen(a.target, w, h);
    }
    assert ResolvePx(None, w, h).Err?;
    hide ResolvePx, Replay, OnScreen, Wheel;
    NoKeys(Plan(a, w, h).value);
  }

  // ---- which actions are planned, and as what ----

  /** What the planner asks of an action, verb by verb; a drag needs two different points. */
  ghost predicate Plannable(a: Action, w: nat, h: nat) {
    var aimed := a.target.Some? && Reachable(a.target.value, w, h);
    match a.verb
    case Moving => aimed
    case Clicking(_) => aimed
    case DoubleClick => aimed
    case Scrolling => aimed && !((a.dx.None? || a.dx.value == 0.0) && (a.dy.None? || a.dy.value == 0.0))
    case Dragging =>
      && aimed && a.to.Some? && Reachable(a.to.value, w, h) && (a.button.None? || a.button == Some("left"))
      && forall p: (real, real) :: Lands(p, a.target.value, w, h) ==> !Lands(p, a.to.value, w, h)
    case Half(_) => (a.button.None? || a.button.value in ["left", "right"]) && (a.target.None? || aimed)
    case TypeText => a.text.Some?
    case KeyVerb => a.keys.Some? && a.keys.value.1 != [] && AllKnown(a.keys.value.0) && KeyKeycode(a.keys.value.1).Some?
    case Unplanned(_) => false
  }

  lemma PlannedIff(a: Action, w: nat, h: nat)
    ensures Plan(a, w, h).Ok? <==> Plannable(a, w, h)
  {
    ResolvesIff(a.target, w, h);
    ResolvesIff(a.to, w, h);
    hide ResolvePx, Wheel, Lands, Reachable, Chunks, DragPlan, KeyKeycode, AllKnown;
    if a.verb.KeyVerb? && a.keys.Some? {
      KeyPlanPresses(a.keys.value.0, a.keys.value.1);
      hide KeyPlan;
    }
    if a.verb.Dragging? && a.target.Some? && a.to.Some? && ResolvePx(a.target, w, h).Ok? && ResolvePx(a.to, w, h).Ok? {
      SamePointIff(a.target.value, a.to.value, w, h);
    }
  }

  lemma SamePointIff(from: Target, to: Target, w: nat, h: nat)
    requires ResolvePx(Some(from), w, h).Ok? && ResolvePx(Some(to), w, h).Ok?
    ensures ResolvePx(Some(from), w, h) == ResolvePx(Some(to), w, h) <==>
            exists p: (real, real) :: Lands(p, from, w, h) && Lands(p, to, w, h)
  {
    var p, q := ResolvePx(Some(from), w, h).value, ResolvePx(Some(to), w, h).value;
    ResolvesIff(Some(from), w, h);
    ResolvesIff(Some(to), w, h);
    hide ResolvePx, Lands;
    forall r: (real, real) | Lands(r, from, w, h) && Lands(r, to, w, h) ensures r == p && r == q {
      LandsOnce(r, p, from, w, h);
      LandsOnce(r, q, to, w, h);
    }
  }

  /** The presses (true) and releases of each verb, with their click counts. */
  function Gestures(verb: Verb): seq<(bool, int)> {
    match verb
    case Clicking(_) => [(true, 1), (false, 1)]
    case DoubleClick => [(true, 1), (false, 1), (true, 2), (false, 2)]
    case Half(down) => [(down, 1)]
    case _ => []
  }

  /** After the move, if there is one, a pointer plan is exactly the gestures of its verb, or the one wheel event. */
  lemma PointerGestures(a: Action, w: nat, h: nat)
    requires Plan(a, w, h).Ok? && !a.verb.KeyVerb? && !a.verb.TypeText? && !a.verb.Dragging?
    ensures var plan, moves, gestures := Plan(a, w, h).value, if a.target.Some? then 1 else 0, Gestures(a.verb);
            && |plan| == moves + |gestures| + (if a.verb.Scrolling? then 1 else 0)
            && (moves == 1 ==> plan[0].Move?) && (a.verb.Scrolling? ==> plan[1].Scroll?)
            && forall i :: 0 <= i < |gestures| ==>
                 var e := plan[moves + i];
                 && (if a.target.Some? then e.Button? else e.ButtonHere?)
                 && e.down == gestures[i].0 && e.clicks == gestures[i].1
  {
    assert ResolvePx(None, w, h).Err?;
    hide ResolvePx, Wheel;
  }

  /** Typing sends only text, whose units decode to it. */
  lemma TypesText(a: Action, w: nat, h: nat)
    requires a.verb.TypeText? && a.text.Some?
    ensures Plan(a, w, h).Ok? && Decode(UnitsOf(Plan(a, w, h).value)) == Some(a.text.value)
    ensures forall i :: 0 <= i < |Plan(a, w, h).value| ==> Plan(a, w, h).value[i].Text?
  {
    assert Plan(a, w, h) == Ok(Texts(Chunks(a.text.value))) by { hide Chunks, ResolvePx; }
    hide *;
    ChunksFacts(a.text.value);
    TextsUnits(Chunks(a.text.value));
  }

  /** All that a plan types. */
  function UnitsOf(plan: seq<Input>): seq<Unit> {
    if plan == [] then []
    else
      var last := plan[|plan| - 1];
      UnitsOf(plan[..|plan| - 1]) + if last.Text? then last.units else []
  }

  lemma {:induction false} TextsUnits(chunks: seq<seq<Unit>>)
    ensures UnitsOf(Texts(chunks)) == Flatten(chunks)
  {
    if chunks != [] {
      TextsUnits(chunks[..|chunks| - 1]);
      assert Texts(chunks)[..|chunks| - 1] == Texts(chunks[..|chunks| - 1]);
    }
  }

  /** A key action presses its key under the modifiers it names. */
  lemma PressesKeys(a: Action, w: nat, h: nat)
    requires a.verb.KeyVerb? && Plan(a, w, h).Ok?
    ensures var (mods, key) := a.keys.value;
            && AllKnown(mods) && KeyKeycode(key).Some?
            && Presses(Plan(a, w, h).value, Wanted(mods, KeyKeycode(key).value), KeyKeycode(key).value.code)
  {
    KeyPlanPresses(a.keys.value.0, a.keys.value.1);
    hide KeyPlan, KeyKeycode, Presses, AllKnown, Wanted;
  }

  // ---- drags ----

  /** From `a` to `b` in either direction, u is reached before v. */
  ghost predicate Advances(a: real, u: real, v: real, b: real) {
    (a <= u <= v <= b) || (a >= u >= v >= b)
  }

  lemma Interpolated(a: real, b: real, s: real, t: real)
    requires 0.0 <= s <= t <= 1.0
    ensures Advances(a, Between(a, b, s), Between(a, b, t), b) && Between(a, b, 1.0) == b
  {
    ProductSign(b - a, s);
    ProductSign(b - a, t - s);
    ProductSign(b - a, 1.0 - t);
    ProductSign(a - b, s);
    ProductSign(a - b, t - s);
    ProductSign(a - b, 1.0 - t);
  }

  /** The motions never turn back on either axis, and the last one is at the drop point. */
  lemma DragAdvances(a: (real, real), b: (real, real), i: int, j: int)
    requires 0 <= i <= j <= DRAG_STEPS
    ensures Advances(a.0, DragPoint(a, b, i).x, DragPoint(a, b, j).x, b.0)
    ensures Advances(a.1, DragPoint(a, b, i).y, DragPoint(a, b, j).y, b.1)
    ensures DragPoint(a, b, DRAG_STEPS) == Drag(b.0, b.1)
  {
    var s, t := i as real / DRAG_STEPS as real, j as real / DRAG_STEPS as real;
    hide Between, Advances;
    Interpolated(a.0, b.0, s, t);
    Interpolated(a.1, b.1, s, t);
  }

  lemma {:induction false} PathPoints(a: (real, real), b: (real, real), n: nat)
    ensures |DragPath(a, b, n)| == n && forall i :: 0 <= i < n ==> DragPath(a, b, n)[i] == DragPoint(a, b, i + 1)
  {
    hide DragPoint;
    if n > 0 {
      PathPoints(a, b, n - 1);
    }
  }

  /** A drag presses at its start, moves through eight points that advance to the end, and releases there. */
  lemma DragFacts(a: (real, real), b: (real, real))
    ensures var plan := DragPlan(a, b);
            && |plan| == DRAG_STEPS + 3 && plan[0] == Move(a.0, a.1) && plan[1] == Button(false, true, a.0, a.1, 1)
            && plan[DRAG_STEPS + 1] == Drag(b.0, b.1) && plan[DRAG_STEPS + 2] == Button(false, false, b.0, b.1, 1)
            && (forall i :: 2 <= i < DRAG_STEPS + 2 ==> plan[i].Drag?)
            && forall i, j :: 2 <= i <= j < DRAG_STEPS + 2 ==>
                 Advances(a.0, plan[i].x, plan[j].x, b.0) && Advances(a.1, plan[i].y, plan[j].y, b.1)
  {
    PathPoints(a, b, DRAG_STEPS);
    DragAdvances(a, b, 1, 1);
    var plan := DragPlan(a, b);
    assert forall i :: 2 <= i < DRAG_STEPS + 2 ==> plan[i] == DragPoint(a, b, i - 1);
    hide DragPath, DragPlan, Advances;
    forall i, j | 2 <= i <= j < DRAG_STEPS + 2
      ensures Advances(a.0, plan[i].x, plan[j].x, b.0) && Advances(a.1, plan[i].y, plan[j].y, b.1)
    {
      DragAdvances(a, b, i - 1, j - 1);
    }
  }

  lemma DragReleases(a: (real, real), b: (real, real), w: nat, h: nat)
    ensures Replay({}, DragPlan(a, b)) == {} && ReplayButtons({}, DragPlan(a, b)) == {}
    ensures OnScreen(a.0, a.1, w, h) && OnScreen(b.0, b.1, w, h) ==> AllInScreen(DragPlan(a, b), w, h)
  {
    DragFacts(a, b);
    var plan := DragPlan(a, b);
    hide DragPlan;
    NoKeys(plan);
    var n := DRAG_STEPS + 2;
    assert plan == plan[..n] + [plan[n]];
    ButtonsAppend({}, plan[..n], plan[n]);
    OnlyLeft(plan[..n]);
    if OnScreen(a.0, a.1, w, h) && OnScreen(b.0, b.1, w, h) {
      forall i | 0 <= i < |plan| ensures InScreen(plan[i], w, h) {
        if 2 <= i < n {
          assert Advances(a.0, plan[i].x, plan[i].x, b.0) && Advances(a.1, plan[i].y, plan[i].y, b.1);
        }
      }
    }
  }

  lemma {:induction false} OnlyLeft(plan: seq<Input>)
    requires forall i :: 0 <= i < |plan| && plan[i].Button? ==> !plan[i].right
    requires forall i :: 0 <= i < |plan| ==> !plan[i].ButtonHere?
    ensures ReplayButtons({}, plan) <= {false}
  {
    if plan != [] {
      OnlyLeft(plan[..|plan| - 1]);
    }
  }

  /**
   A planned drag starts where `target` says and ends where `to` says, which is elsewhere; between the
   press and the release it moves through eight points, an eighth of the way apart.
   */
  lemma DragAims(a: Action, w: nat, h: nat)
    requires a.verb.Dragging? && Plan(a, w, h).Ok?
    ensures var plan := Plan(a, w, h).value;
            && a.target.Some? && a.to.Some? && |plan| == 11 && plan[0].Move? && plan[10].Button?
            && var p, q := (plan[0].x, plan[0].y), (plan[10].x, plan[10].y);
               && Lands(p, a.target.value, w, h) && Lands(q, a.to.value, w, h) && p != q
               && plan[1] == Button(false, true, p.0, p.1, 1) && plan[10] == Button(false, false, q.0, q.1, 1)
               && forall i :: 2 <= i < 10 ==>
                    && plan[i].Drag?
                    && 8.0 * (plan[i].x - p.0) == (i - 1) as real * (q.0 - p.0)
                    && 8.0 * (plan[i].y - p.1) == (i - 1) as real * (q.1 - p.1)
  {
    ResolvesIff(a.target, w, h);
    ResolvesIff(a.to, w, h);
    hide ResolvePx, Lands, Reachable, DragPlan;
    var p, q := ResolvePx(a.target, w, h).value, ResolvePx(a.to, w, h).value;
    DragIsEven(p, q);
  }

  lemma DragIsEven(a: (real, real), b: (real, real))
    ensures var plan := DragPlan(a, b);
            && |plan| == 11 && plan[0] == Move(a.0, a.1)
            && plan[1] == Button(false, true, a.0, a.1, 1) && plan[10] == Button(false, false, b.0, b.1, 1)
            && forall i :: 2 <= i < 10 ==>
                 && plan[i].Drag?
                 && 8.0 * (plan[i].x - a.0) == (i - 1) as real * (b.0 - a.0)
                 && 8.0 * (plan[i].y - a.1) == (i - 1) as real * (b.1 - a.1)
  {
    PathPoints(a, b, DRAG_STEPS);
    var plan := DragPlan(a, b);
    hide DragPath;
    forall i | 2 <= i < 10
      ensures plan[i].Drag? && 8.0 * (plan[i].x - a.0) == (i - 1) as real * (b.0 - a.0)
              && 8.0 * (plan[i].y - a.1) == (i - 1) as real * (b.1 - a.1)
    {
      assert plan[i] == DragPoint(a, b, i - 1);
      hide DragPlan;
      Eighth(a.0, b.0, i - 1);
      Eighth(a.1, b.1, i - 1);
    }
  }

  lemma Eighth(a: real, b: real, i: int)
    ensures 8.0 * (Between(a, b, i as real / DRAG_STEPS as real) - a) == i as real * (b - a)
  {
    var t := i as real / 8.0;
    assert 8.0 * ((b - a) * t) == (8.0 * t) * (b - a);
  }
}
