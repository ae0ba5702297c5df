/** What every action is answered with: which are invalid, which are refused, and what the others get. */
module SessionAnswers {
  import opened Numbers
  import opened Results
  import opened Screens
  import opened Session

  // ---- which actions are invalid ----

  predicate BadCapture(scope: Option<string>, format: Option<string>) {
    (scope.Some? && !ValidScope(scope.value)) || (format.Some? && format.value != "png" && format.value != "jpeg")
  }

  predicate BadNumbers(quality: Option<nat>, maxLongEdge: Option<nat>) {
    (quality.Some? && !(1 <= quality.value <= 100)) || maxLongEdge == Some(0)
  }

  /** The schema's rules: on numbers for every verb, on scope and format for captures, on `observe` for mutating verbs only. */
  predicate Invalid(spec: ActionSpec) {
    || (spec.fps.Some? && !(FPS_MIN <= spec.fps.value <= FPS_MAX))
    || BadNumbers(spec.quality, spec.maxLongEdge)
    || (IsCapture(VerbOf(spec.verb)) && BadCapture(spec.scope, spec.format))
    || (spec.observe.Some? &&
        var o := spec.observe.value;
        !Mutating(VerbOf(spec.verb)) || BadCapture(o.scope, o.format) || BadNumbers(o.quality, o.maxLongEdge))
  }

  lemma CheckIffInvalid(spec: ActionSpec)
    ensures Check(spec).Some? <==> Invalid(spec)
  {
    hide VerbOf, ValidScope, Mutating;
  }

  function CallOf(r: Reply): Option<string> {
    match r case Welcome(_, _) => None case Pong(_) => None case _ => Some(r.callId)
  }

  predicate Acked(callId: string, step: Step) { step.reply == Some(Ack(callId, true, None)) }

  predicate Nacked(callId: string, step: Step) {
    step.reply.Some? && step.reply.value.Ack? && step.reply.value.callId == callId && !step.reply.value.ok
  }

  /** The value an optional field asks for, or the default. */
  function Asked<T>(field: Option<T>, default: T): T {
    match field case Some(v) => v case None => default
  }

  /** A window scope names a 32-bit id, in decimal or hexadecimal. */
  lemma WindowScopes(id: nat)
    ensures ValidScope("window:" + Numeral(id, 10)) <==> id < 0x1_0000_0000
    ensures ValidScope("window:" + ("0x" + Numeral(id, 16))) <==> id < 0x1_0000_0000
  {
    var decimal, hex := Numeral(id, 10), Numeral(id, 16);
    NumeralParses(id, 10);
    NumeralParses(id, 16);
    NumeralReads(id, 10);
    NoHexPrefix(decimal);
    WindowScope(decimal);
    WindowScope("0x" + hex);
    assert ("0x" + hex)[2..] == hex && HasPrefix("0x" + hex, "0x");
  }

  lemma NoHexPrefix(s: string)
    requires AllDigits(s, 10)
    ensures !HasPrefix(s, "0x")
  {
    assert 'x' !in s;
    hide AllDigits;
    HexPrefixHasX(s);
  }

  lemma HexPrefixHasX(s: string)
    ensures HasPrefix(s, "0x") ==> 'x' in s
  {
    if HasPrefix(s, "0x") {
      assert s[1] == 'x';
    }
  }

  lemma WindowScope(id: string)
    ensures ValidScope("window:" + id) <==>
              if HasPrefix(id, "0x") then ParseU32(id[2..], 16).Some? else ParseU32(id, 10).Some?
  {
    hide ParseU32;
    var s := "window:" + id;
    assert s[7..] == id && "window:" <= s && s[6] == ':';
  }

  /** There is no other scope but the two words. */
  lemma OtherScopes(s: string)
    requires !("window:" <= s)
    ensures ValidScope(s) <==> s == "screen" || s == "active_window"
  {
  }

  // ---- the verbs by name ----

  lemma VerbNames(name: string)
    ensures VerbOf(name).Screenshot? <==> name == "screenshot"
    ensures VerbOf(name).Exec? <==> name == "exec"
    ensures VerbOf(name).StartScreencast? <==> name == "start_screencast"
    ensures VerbOf(name).StopScreencast? <==> name == "stop_screencast"
    ensures VerbOf(name).Wait? <==> name == "wait"
    ensures VerbOf(name).Observe? <==> name == "observe"
    ensures VerbOf(name).ClipboardGet? <==> name == "clipboard_get"
    ensures VerbOf(name).InvokeAction? <==> name == "invoke_action"
    ensures VerbOf(name).SetValue? <==> name == "set_value"
    ensures VerbOf(name).LaunchApp? <==> name == "launch_app"
    ensures VerbOf(name).Desktop? ==> VerbOf(name).name == name
  {
  }

  lemma MutatingNames(name: string)
    ensures Mutating(VerbOf(name)) <==>
              name in ["click", "double_click", "right_click", "move", "drag", "mouse_down", "mouse_up", "scroll",
                       "type_text", "key", "invoke_action", "set_value", "clipboard_set", "launch_app", "activate_window"]
  {
    VerbNames(name);
    hide VerbOf;
  }

  // ---- what a verb refuses ----

  /** The size limit in force: the one asked for, at most 2576. */
  function Edge(asked: Option<nat>): Option<int> {
    match asked case Some(edge) => Some(if edge <= 2576 then edge else 2576) case None => None
  }

  function Coding(format: Option<string>): ImageFormat { if format == Some("jpeg") then Jpeg else Png }

  function Limited(asked: nat, limit: nat): nat { if asked <= limit then asked else limit }

  /** The picture a screenshot must show, if there is one. */
  function Shown(spec: ActionSpec, w: World): Option<Shot> {
    var scope, opts := Asked(spec.scope, "screen"), Opts(Edge(spec.maxLongEdge), Coding(spec.format), Asked(spec.quality, 80));
    if !w.raw then
      (match w.capture(scope, opts) case Ok((data, meta)) => Some(Image(data, None, meta)) case Err(_) => None)
    else
      match w.captureRaw(scope, opts.maxLongEdge)
      case Err(_) => None
      case Ok((raw, meta)) =>
        if spec.ifNoneMatch == Some(w.codec.hash(raw)) then Some(NotModified(w.codec.hash(raw), meta))
        else (
          match w.codec.encode(raw, Opts(None, opts.format, opts.quality))
          case Ok(data) => Some(Image(data, Some(w.codec.hash(raw)), meta))
          case Err(_) => None)
  }

  /** The target names an element of the last observation, and there is a tree to drive. */
  predicate Known(c: Config, s: State, spec: ActionSpec) {
    c.tree && spec.target.Some? && spec.target.value.ElementRef? && spec.target.value.id in s.obs
  }

  /** What the executor must be given: the action, its element reference replaced by the element's centre. */
  function Physical(s: State, spec: ActionSpec): Option<ActionSpec> {
    match spec.target
    case Some(ElementRef(id)) =>
      if id in s.obs && s.obs[id].centre.Ok? then
        Some(spec.(target := Some(PointPx(s.obs[id].centre.value.0 as real, s.obs[id].centre.value.1 as real))))
      else None
    case _ => Some(spec)
  }

  predicate Performs(s: State, spec: ActionSpec, w: World) {
    Physical(s, spec).Some? && w.execute(Physical(s, spec).value).Ok?
  }

  /** A valid action is refused exactly for these reasons. */
  predicate Refused(c: Config, s: State, spec: ActionSpec, w: World) {
    match VerbOf(spec.verb)
    case Screenshot => Shown(spec, w).None?
    case Exec => !(c.execEnabled && spec.pty != Some(true) && spec.timeoutMs != Some(0)
                   && (spec.argv.Some? <==> spec.shell.None?) && spec.argv != Some([]))
    case StartScreencast => spec.delta == Some(true) && !w.raw
    case StopScreencast => false
    case Wait => false
    case Observe => spec.structured == Some(false) || !c.tree || w.snapshot(spec.settleMs).Err?
    case ClipboardGet => w.clipboard.Err?
    case InvokeAction => !Known(c, s, spec) || w.invoke(s.obs[spec.target.value.id].backendId, spec.text).Err?
    case SetValue =>
      !Known(c, s, spec) || spec.text.None? || w.setValue(s.obs[spec.target.value.id].backendId, spec.text.value).Err?
    case LaunchApp => !c.execEnabled || !Performs(s, spec, w)
    case Desktop(_) => !Performs(s, spec, w)
  }

  // ---- what the others get ----

  /** What follows the acknowledgement of an action with `observe`: a plain capture of what it asks for, or an error. */
  predicate Observed(s: State, callId: string, spec: ActionSpec, w: World, followup: Option<Reply>) {
    match spec.observe
    case None => followup == None
    case Some(ask) =>
      var scope := Asked(ask.scope, "screen");
      && followup.Some?
      && match w.capture(scope, Opts(Edge(ask.maxLongEdge), Coding(ask.format), Asked(ask.quality, 80)))
         case Ok((data, meta)) => followup.value == Picture(callId, scope, Image(data, None, meta), s.binary)
         case Err(_) => followup.value.ResultErr? && followup.value.callId == callId
  }

  predicate Plain(step: Step) {
    !step.close && step.stream == NoStream && step.delayMs == 0 && step.followup == None && step.exec == None
  }

  /** The answer to a valid action that is not refused, verb by verb. */
  predicate Given(c: Config, s: State, callId: string, spec: ActionSpec, w: World, step: Step) {
    match VerbOf(spec.verb)
    case Screenshot =>
      && Plain(step) && Shown(spec, w).Some?
      && var shot := Shown(spec, w).value;
         step.reply == Some(Picture(callId, Asked(spec.scope, "screen"), shot, s.binary && shot.Image?))
    case Exec =>
      && step.exec.Some? && Plain(step.(exec := None))
      && step.reply == (if spec.stream == Some(true) then Some(Ack(callId, true, None)) else None)
      && step.exec.value == ExecSpec(
           callId, step.exec.value.command, spec.cwd, spec.env, Limited(Asked(spec.timeoutMs, 60000), 600000), spec.stdin,
           spec.stream == Some(true), s.binary)
      && (match step.exec.value.command case Argv(argv) => spec.argv == Some(argv) case Shell(line) => spec.shell == Some(line))
    case StartScreencast =>
      && Acked(callId, step) && Plain(step.(stream := NoStream))
      && step.stream == Start(Screencast(
           callId, Asked(spec.fps, 5.0), Edge(Some(Asked(spec.maxLongEdge, 2576))), Coding(spec.format), Asked(spec.quality, 80),
           Asked(spec.scope, "screen"), 0, spec.resumeStream, spec.delta == Some(true), s.binary))
    case StopScreencast => Acked(callId, step) && Plain(step.(stream := NoStream)) && step.stream == Stop
    case Wait => Acked(callId, step) && Plain(step.(delayMs := 0)) && step.delayMs == Limited(Asked(spec.ms, 0), 10000)
    case Observe =>
      && Plain(step) && w.snapshot(spec.settleMs).Ok?
      && step.reply == Some(TreeText(callId, w.render(s.obs, w.snapshot(spec.settleMs).value, spec.diff == Some(true))))
    case ClipboardGet => Plain(step) && w.clipboard.Ok? && step.reply == Some(ResultOk(callId, w.clipboard.value))
    case _ => Acked(callId, step) && Plain(step.(followup := None)) && Observed(s, callId, spec, w, step.followup)
  }

  /** The calls on the guest that a valid action makes, in order. */
  function Calls(c: Config, s: State, spec: ActionSpec, w: World): seq<Effect> {
    match VerbOf(spec.verb)
    case Screenshot =>
      [Capture(Asked(spec.scope, "screen"), Opts(Edge(spec.maxLongEdge), Coding(spec.format), Asked(spec.quality, 80)))]
    case Observe => if spec.structured == Some(false) || !c.tree then [] else [Snapshot(spec.settleMs)]
    case ClipboardGet => [ReadClipboard]
    case InvokeAction =>
      if !Known(c, s, spec) then []
      else
        var node := s.obs[spec.target.value.id].backendId;
        Then([Invoke(node, spec.text, w.invoke(node, spec.text).Ok?)], spec, w.invoke(node, spec.text).Ok?)
    case SetValue =>
      if !Known(c, s, spec) || spec.text.None? then []
      else
        var node := s.obs[spec.target.value.id].backendId;
        Then([Assign(node, spec.text.value, w.setValue(node, spec.text.value).Ok?)], spec, w.setValue(node, spec.text.value).Ok?)
    case LaunchApp => if c.execEnabled then Executed(s, spec, w) else []
    case Desktop(_) => Executed(s, spec, w)
    case _ => []
  }

  /** A successful call is followed by the capture asked for. */
  function Then(calls: seq<Effect>, spec: ActionSpec, ok: bool): seq<Effect> {
    if !ok || spec.observe.None? then calls
    else
      var ask := spec.observe.value;
      calls + [Capture(Asked(ask.scope, "screen"), Opts(Edge(ask.maxLongEdge), Coding(ask.format), Asked(ask.quality, 80)))]
  }

  function Executed(s: State, spec: ActionSpec, w: World): seq<Effect> {
    if Physical(s, spec).None? then []
    else Then([Execute(Physical(s, spec).value, Performs(s, spec, w))], spec, Performs(s, spec, w))
  }

  /**
   The answer to any action: an error exactly when it is invalid or refused, and then nothing else; or
   else just what was asked. Only an observation changes what the session holds.
   */
  predicate Exact(c: Config, s: State, callId: string, spec: ActionSpec, w: World, o: Outcome) {
    && (Nacked(callId, o.step) <==> Invalid(spec) || Refused(c, s, spec, w))
    && (if Invalid(spec) || Refused(c, s, spec, w) then Plain(o.step) else Given(c, s, callId, spec, w, o.step))
    && o.effects == (if Invalid(spec) then [] else Calls(c, s, spec, w))
    && o.state == if VerbOf(spec.verb).Observe? && !Invalid(spec) && !Refused(c, s, spec, w)
                  then s.(obs := w.snapshot(spec.settleMs).value) else s
  }

  // ---- the proof, verb by verb ----

  lemma OptsAreAsked(spec: ActionSpec)
    requires Check(spec).None? && IsCapture(VerbOf(spec.verb))
    ensures OptsOf(spec) == Opts(Edge(spec.maxLongEdge), Coding(spec.format), Asked(spec.quality, 80))
  {
    hide VerbOf, ValidScope;
  }

  lemma ObserveIsAsked(o: ObserveSpec)
    requires ResolveObserve(o).Ok?
    ensures ResolveObserve(o).value ==
            (Asked(o.scope, "screen"), Opts(Edge(o.maxLongEdge), Coding(o.format), Asked(o.quality, 80)))
  {
    hide ValidScope;
  }

  lemma ScreenshotIsExact(c: Config, s: State, callId: string, spec: ActionSpec, w: World)
    requires Check(spec).None? && !Invalid(spec) && VerbOf(spec.verb).Screenshot?
    ensures Exact(c, s, callId, spec, w, DoScreenshot(s, callId, spec, w))
  {
    OptsAreAsked(spec);
    hide VerbOf, Check, Invalid, OptsOf, Edge, Coding;
  }

  lemma ExecIsExact(c: Config, s: State, callId: string, spec: ActionSpec, w: World)
    requires Check(spec).None? && !Invalid(spec) && VerbOf(spec.verb).Exec?
    ensures Exact(c, s, callId, spec, w, DoExec(c, s, callId, spec))
  {
    hide VerbOf, Check, Invalid;
  }

  lemma ScreencastIsExact(c: Config, s: State, callId: string, spec: ActionSpec, w: World)
    requires Check(spec).None? && !Invalid(spec) && VerbOf(spec.verb).StartScreencast?
    ensures Exact(c, s, callId, spec, w, DoScreencast(s, callId, spec, w))
  {
    OptsAreAsked(spec);
    hide VerbOf, Check, Invalid, OptsOf, Coding;
  }

  lemma ObservationIsExact(c: Config, s: State, callId: string, spec: ActionSpec, w: World)
    requires Check(spec).None? && !Invalid(spec) && VerbOf(spec.verb).Observe?
    ensures Exact(c, s, callId, spec, w, DoObserve(c, s, callId, spec, w))
  {
    hide VerbOf, Check, Invalid;
  }

  /** An action that reached the guest. */
  lemma ActedIsExact(s: State, callId: string, spec: ActionSpec, w: World, e: Effect, r: Result<(), string>)
    requires Check(spec).None?
    ensures var o := Acted(s, callId, spec, w, e, r);
            && o.state == s && (Nacked(callId, o.step) <==> r.Err?) && o.effects == Then([e], spec, r.Ok?)
            && (if r.Err? then Plain(o.step)
                else Acked(callId, o.step) && Plain(o.step.(followup := None)) && Observed(s, callId, spec, w, o.step.followup))
  {
    assert spec.observe.Some? ==> ResolveObserve(spec.observe.value).Ok? by { hide VerbOf, ValidScope, ResolveObserve; }
    if spec.observe.Some? {
      ObserveIsAsked(spec.observe.value);
    }
    hide Check, ResolveObserve, Edge, Coding;
  }

  lemma InvokeIsExact(c: Config, s: State, callId: string, spec: ActionSpec, w: World)
    requires Check(spec).None? && !Invalid(spec) && VerbOf(spec.verb).InvokeAction?
    ensures Exact(c, s, callId, spec, w, DoElement(c, s, callId, spec, w))
  {
    hide VerbOf, Check, Invalid, Acted, Observed, Then;
    if Known(c, s, spec) {
      var node := s.obs[spec.target.value.id].backendId;
      var r := w.invoke(node, spec.text);
      ActedIsExact(s, callId, spec, w, Invoke(node, spec.text, r.Ok?), r);
    }
  }

  lemma SetValueIsExact(c: Config, s: State, callId: string, spec: ActionSpec, w: World)
    requires Check(spec).None? && !Invalid(spec) && VerbOf(spec.verb).SetValue?
    ensures Exact(c, s, callId, spec, w, DoElement(c, s, callId, spec, w))
  {
    hide VerbOf, Check, Invalid, Acted, Observed, Then;
    if Known(c, s, spec) && spec.text.Some? {
      var node := s.obs[spec.target.value.id].backendId;
      var r := w.setValue(node, spec.text.value);
      ActedIsExact(s, callId, spec, w, Assign(node, spec.text.value, r.Ok?), r);
    }
  }

  lemma DesktopIsExact(c: Config, s: State, callId: string, spec: ActionSpec, w: World)
    requires Check(spec).None? && !Invalid(spec)
    requires VerbOf(spec.verb).Desktop? || (VerbOf(spec.verb).LaunchApp? && c.execEnabled)
    ensures Exact(c, s, callId, spec, w, DoDesktop(s, callId, spec, w))
  {
    hide VerbOf, Check, Invalid, Acted, Observed, Then;
    if Physical(s, spec).Some? {
      var given := Physical(s, spec).value;
      assert given == spec.(target := Located(s, spec.target).value);
      ActedIsExact(s, callId, spec, w, Execute(given, w.execute(given).Ok?), w.execute(given));
    }
  }

  lemma PlainIsExact(c: Config, s: State, callId: string, spec: ActionSpec, w: World)
    requires Check(spec).None? && !Invalid(spec)
    requires VerbOf(spec.verb).StopScreencast? || VerbOf(spec.verb).Wait? || VerbOf(spec.verb).ClipboardGet?
    ensures Exact(c, s, callId, spec, w, Dispatch(c, s, callId, Ok(spec), w))
  {
    hide VerbOf, Check, Invalid;
  }

  lemma NackIsExact(c: Config, s: State, callId: string, spec: ActionSpec, w: World, error: string)
    requires Invalid(spec) || (VerbOf(spec.verb).LaunchApp? && !c.execEnabled)
    ensures Exact(c, s, callId, spec, w, Outcome(Nack(callId, error), [], s))
  {
    hide VerbOf, Invalid;
  }

  lemma DispatchIsExact(c: Config, s: State, callId: string, spec: ActionSpec, w: World)
    ensures Exact(c, s, callId, spec, w, Dispatch(c, s, callId, Ok(spec), w))
  {
    CheckIffInvalid(spec);
    hide Exact, Invalid, Check, VerbOf;
    if Check(spec).Some? {
      NackIsExact(c, s, callId, spec, w, Check(spec).value);
    } else {
      hide DoScreenshot, DoExec, DoScreencast, DoObserve, DoElement, DoDesktop;
      match VerbOf(spec.verb)
      case Screenshot => ScreenshotIsExact(c, s, callId, spec, w);
      case Exec => ExecIsExact(c, s, callId, spec, w);
      case StartScreencast => ScreencastIsExact(c, s, callId, spec, w);
      case Observe => ObservationIsExact(c, s, callId, spec, w);
      case InvokeAction => InvokeIsExact(c, s, callId, spec, w);
      case SetValue => SetValueIsExact(c, s, callId, spec, w);
      case LaunchApp =>
        if c.execEnabled {
          DesktopIsExact(c, s, callId, spec, w);
        } else {
          NackIsExact(c, s, callId, spec, w, "launch_app is disabled by server policy");
        }
      case Desktop(_) => DesktopIsExact(c, s, callId, spec, w);
      case _ => PlainIsExact(c, s, callId, spec, w);
    }
  }

  // ---- the other messages ----

  predicate ErrorTo(callId: string, step: Step) {
    step.reply.Some? && step.reply.value.ResultErr? && step.reply.value.callId == callId
  }

  predicate AnswersWith(callId: string, value: string, step: Step) {
    step.reply == Some(ResultOk(callId, value))
  }

  /** The answer to a query: four are known, and `list_windows` may fail. */
  predicate Queried(callId: string, q: string, w: World, step: Step) {
    if q == "screen_size" then AnswersWith(callId, w.size, step)
    else if q == "ready" then AnswersWith(callId, w.readiness, step)
    else if q == "platform" then AnswersWith(callId, w.platform, step)
    else if q == "list_windows" && w.windows.Ok? then AnswersWith(callId, w.windows.value, step)
    else ErrorTo(callId, step)
  }

  /**
   What any message but an authenticated action leads to: a v0 hello with the token opens the session,
   says what it offers and fixes its framing; whatever else comes first, and what cannot be read, closes
   it; a later hello is refused; queries and pings are answered.
   */
  predicate Heard(c: Config, s: State, m: Result<Message, string>, w: World, o: Outcome) {
    && Plain(o.step.(close := false))
    && if m.Err? then o.step.close && ErrorTo("?", o.step) && o.state == s
       else if !s.authed && m.value.Hello? && m.value.v == 0 && (c.token.None? || Asked(m.value.token, "") == c.token.value) then
         !o.step.close && o.step.reply == Some(Welcome(c.tree, c.execEnabled)) && o.state == State(true, m.value.acceptBinary, s.obs)
       else if !s.authed then o.step.close && ErrorTo("?", o.step) && o.state == s
       else
         && !o.step.close && o.state == s
         && match m.value
            case Hello(_, _, _) => ErrorTo("?", o.step)
            case Query(callId, q) => Queried(callId, q, w, o.step)
            case Ping(t) => o.step.reply == Some(Pong(t))
            case OtherMessage => o.step.reply == None
            case Action(_, _) => true
  }

  lemma MessageIsHeard(c: Config, s: State, m: Result<Message, string>, w: World)
    requires s.authed && m.Ok? ==> !m.value.Action?
    ensures Heard(c, s, m, w, OnText(c, s, m, w))
  {
    hide Dispatch;
  }
}
