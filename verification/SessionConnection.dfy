/** The session as the code runs it: an object whose handshake and observations update its fields. */
module SessionConnection {
  import opened Results
  import opened Screens
  import opened Session
  import opened SessionAnswers
  import opened SessionRuns

  /** The session object: its fields are updated in place by the handshake and by observations. */
  class Connection {
    const config: Config
    var authed: bool
    var binary: bool
    var obs: Elements

    ghost function View(): State
      reads this
    {
      State(authed, binary, obs)
    }

    constructor (config: Config)
      ensures View() == NEW && this.config == config
    {
      this.config := config;
      authed, binary, obs := false, false, map[];
    }

    method HandleText(m: Result<Message, string>, w: World) returns (step: Step, effects: seq<Effect>)
      modifies this
      ensures Outcome(step, effects, View()) == OnText(config, old(View()), m, w)
      ensures old(authed) ==> authed && binary == old(binary)
      ensures !old(authed) ==> effects == [] && OnlyReplies(Outcome(step, effects, View()))
      ensures !old(authed) ==> if Opens(config, m) then authed && !step.close else !authed && step.close
      ensures !(old(authed) && m.Ok? && m.value.Action?) ==> Heard(config, old(View()), m, w, Outcome(step, effects, View()))
    {
      effects := [];
      if !(authed && m.Ok? && m.value.Action?) {
        MessageIsHeard(config, View(), m, w);
      }
      hide Heard;
      match m {
        case Err(_) => step := Closes("bad message");
        case Ok(message) =>
          if authed {
            step, effects := OnAuthed(message, w);
          } else {
            step := OnHandshake(message);
          }
      }
    }

    method OnHandshake(m: Message) returns (step: Step)
      modifies this
      ensures Outcome(step, [], View()) == Handshake(config, old(View()), m)
      ensures OnlyReplies(Outcome(step, [], View())) && step.reply.Some?
      ensures step.close <==> !Opens(config, Ok(m))
      ensures if Opens(config, Ok(m)) then authed && binary == m.acceptBinary else View() == old(View())
    {
      match m {
        case Hello(v, token, acceptBinary) =>
          if v != 0 {
            return Closes("unsupported ACI version");
          }
          if config.token.Some? {
            if (if token.Some? then token.value else "") != config.token.value {
              return Closes("authentication required");
            }
          }
          binary := acceptBinary;
          authed := true;
          step := Says(Welcome(config.tree, config.execEnabled));
        case _ =>
          step := Closes("handshake required");
      }
    }

    method OnAuthed(m: Message, w: World) returns (step: Step, effects: seq<Effect>)
      requires authed
      modifies this
      ensures Outcome(step, effects, View()) == OnText(config, old(View()), Ok(m), w)
      ensures authed && binary == old(binary)
    {
      effects := [];
      match m {
        case Hello(_, _, _) => step := Says(ResultErr("?", "already authenticated"));
        case Action(callId, action) => step, effects := DispatchAction(callId, action, w);
        case Query(callId, q) =>
          var o := Ask(State(authed, binary, obs), callId, q, w);
          step, effects := o.step, o.effects;
        case Ping(t) => step := Says(Pong(t));
        case OtherMessage => step := Step(None, false, NoStream, 0, None, None);
      }
    }

    /** The numeric, codec and `observe` checks in order; None when the action passes. */
    method Validate(spec: ActionSpec) returns (error: Option<string>)
      ensures error == Check(spec) && (error.Some? <==> Invalid(spec))
    {
      CheckIffInvalid(spec);
      hide VerbOf, ValidScope, Mutating, Invalid;
      var v := VerbOf(spec.verb);
      if spec.fps.Some? {
        if !(FPS_MIN <= spec.fps.value <= FPS_MAX) {
          return Some("fps out of range");
        }
      }
      if spec.maxLongEdge == Some(0) {
        return Some("max_long_edge must be at least 1");
      }
      if spec.quality.Some? {
        if !(1 <= spec.quality.value <= 100) {
          return Some("quality out of range");
        }
      }
      if spec.scope.Some? && IsCapture(v) && !ValidScope(spec.scope.value) {
        return Some("invalid capture scope");
      }
      if IsCapture(v) {
        match ParseFormat(spec.format) {
          case Ok(_) =>
          case Err(e) => return Some(e);
        }
      }
      match spec.observe {
        case Some(o) =>
          if !Mutating(v) {
            return Some("observe is not supported on this verb");
          }
          match ResolveObserve(o) {
            case Ok(_) =>
            case Err(e) => return Some(e);
          }
        case None =>
      }
      return None;
    }

    method DispatchAction(callId: string, action: Result<ActionSpec, string>, w: World)
      returns (step: Step, effects: seq<Effect>)
      modifies this
      ensures Outcome(step, effects, View()) == Dispatch(config, old(View()), callId, action, w)
      ensures action.Ok? ==> Proper(config, old(View()), callId, action.value, w, Outcome(step, effects, View()))
      ensures action.Err? || Invalid(action.value) ==> Nacked(callId, step) && effects == [] && View() == old(View())
    {
      if action.Err? {
        return Nack(callId, "bad action"), [];
      }
      var spec := action.value;
      DispatchIsProper(config, View(), callId, spec, w);
      hide Proper, Invalid;
      var error := Validate(spec);
      if error.Some? {
        return Nack(callId, error.value), [];
      }
      hide VerbOf, Check, DoScreenshot, DoExec, DoScreencast, DoElement, DoDesktop;
      var s := State(authed, binary, obs);
      var o: Outcome;
      match VerbOf(spec.verb) {
        case Screenshot => o := DoScreenshot(s, callId, spec, w);
        case Exec => o := DoExec(config, s, callId, spec);
        case StartScreencast => o := DoScreencast(s, callId, spec, w);
        case StopScreencast => o := Outcome(Accept(callId).(stream := Stop), [], s);
        case Wait =>
          var ms := if spec.ms.Some? then spec.ms.value else 0;
          o := Outcome(Accept(callId).(delayMs := if ms < MAX_WAIT_MS then ms else MAX_WAIT_MS), [], s);
        case Observe =>
          step, effects := ObserveAction(callId, spec, w);
          return;
        case ClipboardGet =>
          match w.clipboard {
            case Ok(text) => o := Outcome(Says(ResultOk(callId, text)), [ReadClipboard], s);
            case Err(e) => o := Outcome(Nack(callId, e), [ReadClipboard], s);
          }
        case InvokeAction => o := DoElement(config, s, callId, spec, w);
        case SetValue => o := DoElement(config, s, callId, spec, w);
        case LaunchApp =>
          if config.execEnabled {
            o := DoDesktop(s, callId, spec, w);
          } else {
            o := Outcome(Nack(callId, "launch_app is disabled by server policy"), [], s);
          }
        case Desktop(_) => o := DoDesktop(s, callId, spec, w);
      }
      DispatchKeepsState(config, s, callId, spec, w);
      return o.step, o.effects;
    }

    method ObserveAction(callId: string, spec: ActionSpec, w: World) returns (step: Step, effects: seq<Effect>)
      modifies this`obs
      ensures Outcome(step, effects, View()) == DoObserve(config, old(View()), callId, spec, w)
    {
      if spec.structured == Some(false) {
        return Nack(callId, "use screenshot"), [];
      }
      if !config.tree {
        return Nack(callId, "structured_observation_unavailable"), [];
      }
      effects := [Snapshot(spec.settleMs)];
      match w.snapshot(spec.settleMs) {
        case Err(_) => step := Nack(callId, "structured observation failed");
        case Ok(elements) =>
          step := Says(TreeText(callId, w.render(obs, elements, spec.diff == Some(true))));
          obs := elements;
      }
    }
  }

  /** Only `observe` changes what the session holds. */
  lemma DispatchKeepsState(c: Config, s: State, callId: string, spec: ActionSpec, w: World)
    requires Check(spec).None? && !VerbOf(spec.verb).Observe?
    ensures Dispatch(c, s, callId, Ok(spec), w).state == s
  {
    hide VerbOf, Check, ScreenOf, OptsOf, FromAction, Located;
  }
}
