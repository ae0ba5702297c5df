/**
 The ACI session: a handshake, then a dispatcher that answers each action with a reply, a follow-up,
 a stream control, an exec or a delay. Calls to the executor and the tree are answered by a `World`.
 */
module Session {
  import opened Numbers
  import opened Results
  import opened Screens

  // ---- actions ----

  datatype Target = PointPx(x: real, y: real) | PointNorm(nx: real, ny: real) | ElementRef(id: string)

  datatype ObserveSpec = ObserveSpec(scope: Option<string>, format: Option<string>, quality: Option<nat>, maxLongEdge: Option<nat>)

  /** The fields of an action that the dispatcher reads; `rest` stands for those only the executor reads. */
  datatype ActionSpec = ActionSpec(
    verb: string, target: Option<Target>, observe: Option<ObserveSpec>, text: Option<string>, ms: Option<nat>,
    scope: Option<string>, fps: Option<real>, maxLongEdge: Option<nat>, format: Option<string>, quality: Option<nat>,
    resumeStream: Option<string>, delta: Option<bool>, ifNoneMatch: Option<string>,
    structured: Option<bool>, diff: Option<bool>, settleMs: Option<nat>,
    argv: Option<seq<string>>, shell: Option<string>, cwd: Option<string>, env: map<string, string>,
    timeoutMs: Option<nat>, stdin: Option<string>, stream: Option<bool>, pty: Option<bool>, rest: seq<int>)

  datatype Verb =
    | Screenshot | Exec | StartScreencast | StopScreencast | Wait | Observe | ClipboardGet
    | InvokeAction | SetValue | LaunchApp | Desktop(name: string)

  function VerbOf(name: string): Verb {
    match name
    case "screenshot" => Screenshot
    case "exec" => Exec
    case "start_screencast" => StartScreencast
    case "stop_screencast" => StopScreencast
    case "wait" => Wait
    case "observe" => Observe
    case "clipboard_get" => ClipboardGet
    case "invoke_action" => InvokeAction
    case "set_value" => SetValue
    case "launch_app" => LaunchApp
    case other => Desktop(other)
  }

  /** The desktop verbs that admit `observe`, beside the element verbs and `launch_app`. */
  const MUTATING_DESKTOP: seq<string> :=
    ["click", "double_click", "right_click", "move", "drag", "mouse_down", "mouse_up", "scroll", "type_text", "key",
     "clipboard_set", "activate_window"]

  predicate Mutating(v: Verb) {
    v.InvokeAction? || v.SetValue? || v.LaunchApp? || (v.Desktop? && v.name in MUTATING_DESKTOP)
  }

  predicate IsCapture(v: Verb) { v.Screenshot? || v.StartScreencast? }

  // ---- exec requests ----

  const DEFAULT_TIMEOUT_MS := 60_000
  const MAX_TIMEOUT_MS := 600_000

  datatype Command = Argv(argv: seq<string>) | Shell(line: string)

  datatype ExecSpec = ExecSpec(
    callId: string, command: Command, cwd: Option<string>, env: map<string, string>, timeoutMs: nat,
    stdin: Option<string>, stream: bool, binary: bool)

  /** `ExecSpec::from_action`. */
  function FromAction(callId: string, spec: ActionSpec, binary: bool): Result<ExecSpec, string> {
    if spec.pty == Some(true) then Err("pty is reserved")
    else if spec.argv.Some? && spec.shell.Some? then Err("exactly one of argv or shell")
    else if spec.argv.None? && spec.shell.None? then Err("exec requires argv or shell")
    else if spec.argv == Some([]) then Err("exec argv must not be empty")
    else if spec.timeoutMs == Some(0) then Err("exec timeout_ms must be at least 1")
    else
      var command := if spec.argv.Some? then Argv(spec.argv.value) else Shell(spec.shell.value);
      var timeout := if spec.timeoutMs.Some? then spec.timeoutMs.value else DEFAULT_TIMEOUT_MS;
      Ok(ExecSpec(callId, command, spec.cwd, spec.env, if timeout < MAX_TIMEOUT_MS then timeout else MAX_TIMEOUT_MS,
                  spec.stdin, spec.stream == Some(true), binary))
  }

  // ---- what a message leads to ----

  datatype Screencast = Screencast(
    streamId: string, fps: real, maxLongEdge: Option<int>, format: ImageFormat, quality: int, scope: string,
    startSeq: nat, resumeStream: Option<string>, delta: bool, binary: bool)

  datatype StreamCtl = NoStream | Start(cast: Screencast) | Stop

  datatype Reply =
    | Ack(callId: string, ok: bool, error: Option<string>)
    | Picture(callId: string, scope: string, shot: Shot, binary: bool)
    | TreeText(callId: string, text: string)
    | ResultOk(callId: string, value: string)
    | ResultErr(callId: string, reason: string)
    | Welcome(tree: bool, exec: bool)
    | Pong(t: int)

  datatype Step = Step(
    reply: Option<Reply>, close: bool, stream: StreamCtl, delayMs: nat, followup: Option<Reply>, exec: Option<ExecSpec>)

  function Says(r: Reply): Step { Step(Some(r), false, NoStream, 0, None, None) }

  function Closes(error: string): Step { Says(ResultErr("?", error)).(close := true) }

  function Nack(callId: string, error: string): Step { Says(Ack(callId, false, Some(error))) }

  function Accept(callId: string): Step { Says(Ack(callId, true, None)) }

  /** Calls on the executor and the tree, and whether they succeeded. */
  datatype Effect =
    | Execute(spec: ActionSpec, ok: bool)
    | Invoke(backendId: string, action: Option<string>, ok: bool)
    | Assign(backendId: string, value: string, ok: bool)
    | Capture(scope: string, opts: Opts)
    | ReadClipboard
    | Snapshot(settleMs: Option<nat>)
    | Probe(q: string)

  /** How the executor and the tree answer the calls of one message. */
  datatype World = World(
    codec: Codec, raw: bool,
    captureRaw: (string, Option<int>) -> Result<(Raw, Meta), string>,
    capture: (string, Opts) -> Result<(Bytes, Meta), string>,
    execute: ActionSpec -> Result<(), string>,
    clipboard: Result<string, string>,
    snapshot: Option<nat> -> Result<Elements, string>,
    render: (Elements, Elements, bool) -> string,
    invoke: (string, Option<string>) -> Result<(), string>,
    setValue: (string, string) -> Result<(), string>,
    size: string, readiness: string, windows: Result<string, string>, platform: string)

  /** The elements of the last observation, by their ids. */
  datatype Element = Element(backendId: string, centre: Result<(int, int), string>)

  type Elements = map<string, Element>

  // ---- the session ----

  /** What is fixed when the session is built. */
  datatype Config = Config(token: Option<string>, execEnabled: bool, tree: bool)

  datatype State = State(authed: bool, binary: bool, obs: Elements)

  const NEW := State(false, false, map[])

  datatype Outcome = Outcome(step: Step, effects: seq<Effect>, state: State)

  const FPS_MIN := 0.1
  const FPS_MAX := 30.0
  const FPS_DEFAULT := 5.0
  const MAX_WAIT_MS := 10_000

  predicate HasPrefix(s: string, prefix: string) { prefix <= s }

  /** `screen`, `active_window`, or `window:` and a 32-bit id in decimal or 0x-hex. */
  predicate ValidScope(s: string) {
    s == "screen" || s == "active_window" ||
    (HasPrefix(s, "window:") &&
     var id := s[|"window:"|..];
     if HasPrefix(id, "0x") then ParseU32(id[2..], 16).Some? else ParseU32(id, 10).Some?)
  }

  function ScopeOf(scope: Option<string>): string { if scope.Some? then scope.value else "screen" }

  function ResolveObserve(o: ObserveSpec): Result<(string, Opts), string> {
    if o.scope.Some? && !ValidScope(o.scope.value) then Err("invalid observe scope")
    else match ParseFormat(o.format)
      case Err(e) => Err(e)
      case Ok(format) =>
        if o.quality.Some? && !(1 <= o.quality.value <= 100) then Err("observe quality out of range")
        else if o.maxLongEdge == Some(0) then Err("observe max_long_edge must be at least 1")
        else Ok((ScopeOf(o.scope), Opts(ClampLongEdge(o.maxLongEdge), format,
                                        if o.quality.Some? then o.quality.value else DEFAULT_JPEG_QUALITY)))
  }

  /** The checks made before any verb runs, in order; the first error is the nack. */
  function Check(spec: ActionSpec): Option<string> {
    var v := VerbOf(spec.verb);
    if spec.fps.Some? && !(FPS_MIN <= spec.fps.value <= FPS_MAX) then Some("fps out of range")
    else if spec.maxLongEdge == Some(0) then Some("max_long_edge must be at least 1")
    else if spec.quality.Some? && !(1 <= spec.quality.value <= 100) then Some("quality out of range")
    else if spec.scope.Some? && IsCapture(v) && !ValidScope(spec.scope.value) then Some("invalid capture scope")
    else if IsCapture(v) && ParseFormat(spec.format).Err? then Some(ParseFormat(spec.format).error)
    else if spec.observe.Some? && !Mutating(v) then Some("observe is not supported on this verb")
    else if spec.observe.Some? && ResolveObserve(spec.observe.value).Err?
    then Some(ResolveObserve(spec.observe.value).error)
    else None
  }

  /** The capture options of a checked capture verb. */
  function OptsOf(spec: ActionSpec): Opts
    requires Check(spec).None? && IsCapture(VerbOf(spec.verb))
  {
    Opts(ClampLongEdge(spec.maxLongEdge), ParseFormat(spec.format).value,
         if spec.quality.Some? then spec.quality.value else DEFAULT_JPEG_QUALITY)
  }

  function ScreenOf(w: World, scope: string, opts: Opts): Screen {
    if w.raw then
      (match w.captureRaw(scope, opts.maxLongEdge) case Ok((raw, meta)) => Pixels(raw, meta) case Err(e) => NoCapture(e))
    else
      (match w.capture(scope, opts) case Ok((data, meta)) => Encoded(Ok(data), meta) case Err(e) => NoCapture(e))
  }

  /** The follow-up of a successful action that asked for one: a fresh capture, or its error. */
  function Followup(callId: string, spec: ActionSpec, w: World, binary: bool): (Option<Reply>, seq<Effect>)
    requires Check(spec).None?
  {
    if spec.observe.None? then (None, [])
    else
      var (scope, opts) := ResolveObserve(spec.observe.value).value;
      match w.capture(scope, opts)
      case Ok((data, meta)) => (Some(Picture(callId, scope, Image(data, None, meta), binary)), [Capture(scope, opts)])
      case Err(e) => (Some(ResultErr(callId, "observe failed")), [Capture(scope, opts)])
  }

  /** An action that reached the executor or the tree: acknowledged, observed if asked, or refused. */
  function Acted(s: State, callId: string, spec: ActionSpec, w: World, effect: Effect, result: Result<(), string>): Outcome
    requires Check(spec).None?
  {
    match result
    case Err(e) => Outcome(Nack(callId, e), [effect], s)
    case Ok(_) =>
      var (followup, captured) := Followup(callId, spec, w, s.binary);
      Outcome(Accept(callId).(followup := followup), [effect] + captured, s)
  }

  function DoScreenshot(s: State, callId: string, spec: ActionSpec, w: World): Outcome
    requires Check(spec).None? && VerbOf(spec.verb).Screenshot?
  {
    var scope, opts := ScopeOf(spec.scope), OptsOf(spec);
    var shot := Screens.Screenshot(w.codec, opts, spec.ifNoneMatch, ScreenOf(w, scope, opts));
    var reply := match shot
      case ShotError(e) => Ack(callId, false, Some(e))
      case NotModified(_, _) => Picture(callId, scope, shot, false)
      case Image(_, _, _) => Picture(callId, scope, shot, s.binary);
    Outcome(Says(reply), [Capture(scope, opts)], s)
  }

  function DoExec(c: Config, s: State, callId: string, spec: ActionSpec): Outcome {
    if !c.execEnabled then Outcome(Nack(callId, "exec is disabled by server policy"), [], s)
    else match FromAction(callId, spec, s.binary)
      case Err(e) => Outcome(Nack(callId, e), [], s)
      case Ok(espec) =>
        var step := if espec.stream then Accept(callId) else Accept(callId).(reply := None);
        Outcome(step.(exec := Some(espec)), [], s)
  }

  function DoScreencast(s: State, callId: string, spec: ActionSpec, w: World): Outcome
    requires Check(spec).None? && VerbOf(spec.verb).StartScreencast?
  {
    var opts := OptsOf(spec);
    var delta := spec.delta == Some(true);
    if delta && !w.raw then Outcome(Nack(callId, "delta screencast not supported by this backend"), [], s)
    else
      var cast := Screencast(
        callId, if spec.fps.Some? then spec.fps.value else FPS_DEFAULT,
        if opts.maxLongEdge.Some? then opts.maxLongEdge else Some(MAX_LONG_EDGE),
        opts.format, opts.quality, ScopeOf(spec.scope), 0, spec.resumeStream, delta, s.binary);
      Outcome(Accept(callId).(stream := Start(cast)), [], s)
  }

  function DoObserve(c: Config, s: State, callId: string, spec: ActionSpec, w: World): Outcome {
    if spec.structured == Some(false) then Outcome(Nack(callId, "use screenshot"), [], s)
    else if !c.tree then Outcome(Nack(callId, "structured_observation_unavailable"), [], s)
    else match w.snapshot(spec.settleMs)
      case Err(e) => Outcome(Nack(callId, "structured observation failed"), [Snapshot(spec.settleMs)], s)
      case Ok(elements) =>
        Outcome(Says(TreeText(callId, w.render(s.obs, elements, spec.diff == Some(true)))),
                [Snapshot(spec.settleMs)], s.(obs := elements))
  }

  function DoElement(c: Config, s: State, callId: string, spec: ActionSpec, w: World): Outcome
    requires Check(spec).None?
  {
    if !c.tree then Outcome(Nack(callId, "structured_observation_unavailable"), [], s)
    else match spec.target
      case Some(ElementRef(id)) =>
        if id !in s.obs then Outcome(Nack(callId, "unknown element_ref"), [], s)
        else
          var backendId := s.obs[id].backendId;
          if VerbOf(spec.verb).InvokeAction? then
            var r := w.invoke(backendId, spec.text);
            Acted(s, callId, spec, w, Invoke(backendId, spec.text, r.Ok?), r)
          else (
            match spec.text
            case None => Outcome(Nack(callId, "set_value requires text"), [], s)
            case Some(value) =>
              var r := w.setValue(backendId, value);
              Acted(s, callId, spec, w, Assign(backendId, value, r.Ok?), r))
      case _ => Outcome(Nack(callId, "an element_ref target is required"), [], s)
  }

  /** The target the executor gets: an element reference becomes the element's centre. */
  function Located(s: State, target: Option<Target>): Result<Option<Target>, string> {
    match target
    case Some(ElementRef(id)) =>
      if id !in s.obs then Err("unknown element_ref")
      else (
        match s.obs[id].centre
        case Ok((x, y)) => Ok(Some(PointPx(x as real, y as real)))
        case Err(e) => Err(e))
    case other => Ok(other)
  }

  function DoDesktop(s: State, callId: string, spec: ActionSpec, w: World): Outcome
    requires Check(spec).None?
  {
    match Located(s, spec.target)
    case Err(e) => Outcome(Nack(callId, e), [], s)
    case Ok(target) =>
      var r := w.execute(spec.(target := target));
      Acted(s, callId, spec, w, Execute(spec.(target := target), r.Ok?), r)
  }

  /** `dispatch_action`. */
  function Dispatch(c: Config, s: State, callId: string, action: Result<ActionSpec, string>, w: World): Outcome {
    match action
    case Err(e) => Outcome(Nack(callId, "bad action"), [], s)
    case Ok(spec) =>
      if Check(spec).Some? then Outcome(Nack(callId, Check(spec).value), [], s)
      else
        match VerbOf(spec.verb)
        case Screenshot => DoScreenshot(s, callId, spec, w)
        case Exec => DoExec(c, s, callId, spec)
        case StartScreencast => DoScreencast(s, callId, spec, w)
        case StopScreencast => Outcome(Accept(callId).(stream := Stop), [], s)
        case Wait =>
          var ms := if spec.ms.Some? then spec.ms.value else 0;
          Outcome(Accept(callId).(delayMs := if ms < MAX_WAIT_MS then ms else MAX_WAIT_MS), [], s)
        case Observe => DoObserve(c, s, callId, spec, w)
        case ClipboardGet =>
          (match w.clipboard
           case Ok(text) => Outcome(Says(ResultOk(callId, text)), [ReadClipboard], s)
           case Err(e) => Outcome(Nack(callId, e), [ReadClipboard], s))
        case InvokeAction => DoElement(c, s, callId, spec, w)
        case SetValue => DoElement(c, s, callId, spec, w)
        case LaunchApp =>
          if c.execEnabled then DoDesktop(s, callId, spec, w)
          else Outcome(Nack(callId, "launch_app is disabled by server policy"), [], s)
        case Desktop(_) => DoDesktop(s, callId, spec, w)
  }

  // ---- messages ----

  datatype Message =
    | Hello(v: int, token: Option<string>, acceptBinary: bool)
    | Action(callId: string, action: Result<ActionSpec, string>)
    | Query(callId: string, q: string)
    | Ping(t: int)
    | OtherMessage

  /** `ct_eq`: equality of the two strings, whatever its timing. */
  predicate TokenAccepted(c: Config, token: Option<string>) {
    c.token.Some? ==> (if token.Some? then token.value else "") == c.token.value
  }

  /** The one hello that opens a session. */
  predicate Opens(c: Config, m: Result<Message, string>) {
    m.Ok? && m.value.Hello? && m.value.v == 0 && TokenAccepted(c, m.value.token)
  }

  function Handshake(c: Config, s: State, m: Message): Outcome {
    match m
    case Hello(v, token, binary) =>
      if v != 0 then Outcome(Closes("unsupported ACI version"), [], s)
      else if !TokenAccepted(c, token) then Outcome(Closes("authentication required"), [], s)
      else Outcome(Says(Welcome(c.tree, c.execEnabled)), [], s.(authed := true, binary := binary))
    case _ => Outcome(Closes("handshake required"), [], s)
  }

  function Ask(s: State, callId: string, q: string, w: World): Outcome {
    if q == "screen_size" then Outcome(Says(ResultOk(callId, w.size)), [Probe(q)], s)
    else if q == "ready" then Outcome(Says(ResultOk(callId, w.readiness)), [Probe(q)], s)
    else if q == "list_windows" then
      (match w.windows
       case Ok(list) => Outcome(Says(ResultOk(callId, list)), [Probe(q)], s)
       case Err(e) => Outcome(Says(ResultErr(callId, e)), [Probe(q)], s))
    else if q == "platform" then Outcome(Says(ResultOk(callId, w.platform)), [], s)
    else Outcome(Says(ResultErr(callId, "unknown query")), [], s)
  }

  /** `on_text`: one inbound frame, already parsed or not. */
  function OnText(c: Config, s: State, m: Result<Message, string>, w: World): Outcome {
    match m
    case Err(e) => Outcome(Closes("bad message"), [], s)
    case Ok(message) =>
      if !s.authed then Handshake(c, s, message)
      else
        match message
        case Hello(_, _, _) => Outcome(Says(ResultErr("?", "already authenticated")), [], s)
        case Action(callId, action) => Dispatch(c, s, callId, action, w)
        case Query(callId, q) => Ask(s, callId, q, w)
        case Ping(t) => Outcome(Says(Pong(t)), [], s)
        case OtherMessage => Outcome(Step(None, false, NoStream, 0, None, None), [], s)
  }
}
