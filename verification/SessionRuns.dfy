/** What the session answers to each action, and what every run of a session keeps. */
module SessionRuns {
  import opened Numbers
  import opened Results
  import opened Screens
  import opened Session
  import opened SessionAnswers

  // ---- what one action may lead to ----

  /** One primary reply with the action's call_id; only a buffered exec is answered by its task instead. */
  ghost predicate Primary(callId: string, step: Step) {
    && !step.close && (step.reply.None? <==> step.exec.Some? && !step.exec.value.stream)
    && (step.reply.Some? ==> CallOf(step.reply.value) == Some(callId))
  }

  /** A follow-up comes exactly after an ok ack of a mutating verb that carried `observe`. */
  ghost predicate Followups(callId: string, spec: ActionSpec, step: Step) {
    && (step.followup.Some? <==> Acked(callId, step) && Mutating(VerbOf(spec.verb)) && spec.observe.Some?)
    && (step.followup.Some? ==> CallOf(step.followup.value) == Some(callId))
  }

  predicate ValidOpts(opts: Opts) {
    1 <= opts.quality <= 100 && (opts.maxLongEdge.Some? ==> 1 <= opts.maxLongEdge.value <= MAX_LONG_EDGE)
  }

  /** A stream is what was asked for, on the session's own framing and from its first frame. */
  ghost predicate AsAsked(s: State, spec: ActionSpec, cast: Screencast) {
    && cast.fps == Asked(spec.fps, FPS_DEFAULT) && cast.scope == Asked(spec.scope, "screen")
    && cast.quality == Asked(spec.quality, DEFAULT_JPEG_QUALITY) && (cast.format.Jpeg? <==> spec.format == Some("jpeg"))
    && (spec.maxLongEdge.Some? && spec.maxLongEdge.value <= MAX_LONG_EDGE ==> cast.maxLongEdge == Some(spec.maxLongEdge.value))
    && cast.delta == Asked(spec.delta, false) && cast.resumeStream == spec.resumeStream && cast.startSeq == 0
    && cast.binary == s.binary
  }

  /** A stream starts only with an ok ack of `start_screencast`, under the call_id and within bounds. */
  ghost predicate Streams(s: State, callId: string, spec: ActionSpec, w: World, step: Step) {
    && (step.stream != NoStream ==> Acked(callId, step))
    && (step.stream.Start? <==> VerbOf(spec.verb).StartScreencast? && Acked(callId, step))
    && (step.stream == Stop <==> VerbOf(spec.verb).StopScreencast? && Acked(callId, step))
    && (step.stream.Start? ==>
          var cast := step.stream.cast;
          && cast.streamId == callId && FPS_MIN <= cast.fps <= FPS_MAX && ValidScope(cast.scope)
          && cast.maxLongEdge.Some? && ValidOpts(Opts(cast.maxLongEdge, cast.format, cast.quality))
          && (cast.delta ==> w.raw) && AsAsked(s, spec, cast))
  }

  /** An exec is for this call, enabled, and bounded; a streamed one is acknowledged. */
  ghost predicate Execs(c: Config, s: State, callId: string, spec: ActionSpec, step: Step) {
    step.exec.Some? ==>
      var e := step.exec.value;
      && VerbOf(spec.verb).Exec? && c.execEnabled && e.callId == callId && e.binary == s.binary
      && 1 <= e.timeoutMs <= MAX_TIMEOUT_MS && (e.command.Argv? ==> e.command.argv != [])
      && (match e.command case Argv(argv) => spec.argv == Some(argv) && spec.shell.None? case Shell(line) => spec.shell == Some(line) && spec.argv.None?)
      && e.cwd == spec.cwd && e.env == spec.env && e.stdin == spec.stdin && e.stream == Asked(spec.stream, false)
      && (e.stream ==> Acked(callId, step))
  }

  /** A valid `wait` lasts as long as asked, up to ten seconds; nothing else waits. */
  ghost predicate Delays(spec: ActionSpec, step: Step) {
    && (!VerbOf(spec.verb).Wait? || Invalid(spec) ==> step.delayMs == 0)
    && (VerbOf(spec.verb).Wait? && !Invalid(spec) ==>
          step.delayMs == if Asked(spec.ms, 0) <= 10000 then Asked(spec.ms, 0) else 10000)
  }

  predicate Mutates(e: Effect) { e.Execute? || e.Invoke? || e.Assign? }

  /** The executor gets the action as it came, with an element reference replaced by the element's centre. */
  ghost predicate Executes(c: Config, s: State, spec: ActionSpec, given: ActionSpec) {
    && (VerbOf(spec.verb).Desktop? || (VerbOf(spec.verb).LaunchApp? && c.execEnabled))
    && given == spec.(target := given.target)
    && match spec.target
       case Some(ElementRef(id)) =>
         && id in s.obs && s.obs[id].centre.Ok?
         && given.target == Some(PointPx(s.obs[id].centre.value.0 as real, s.obs[id].centre.value.1 as real))
       case other => given.target == other
  }

  /** The tree is driven on the node that the last observation gave the element reference. */
  ghost predicate Drives(c: Config, s: State, spec: ActionSpec, backendId: string) {
    c.tree && spec.target.Some? && spec.target.value.ElementRef? && spec.target.value.id in s.obs
    && s.obs[spec.target.value.id].backendId == backendId
  }

  ghost predicate EffectOk(c: Config, s: State, spec: ActionSpec, e: Effect) {
    match e
    case Execute(given, _) => Executes(c, s, spec, given)
    case Invoke(backendId, _, _) => VerbOf(spec.verb).InvokeAction? && Drives(c, s, spec, backendId)
    case Assign(backendId, value, _) => VerbOf(spec.verb).SetValue? && Drives(c, s, spec, backendId) && spec.text == Some(value)
    case Capture(scope, opts) => ValidScope(scope) && ValidOpts(opts)
    case ReadClipboard => VerbOf(spec.verb).ClipboardGet?
    case Snapshot(_) => VerbOf(spec.verb).Observe? && c.tree
    case Probe(_) => false
  }

  /**
   At most one effect changes the guest, and it comes first: it succeeded exactly if the action was
   acknowledged. A capture follows exactly when a follow-up does.
   */
  ghost predicate Effects(c: Config, s: State, callId: string, spec: ActionSpec, o: Outcome) {
    && (forall i :: 0 <= i < |o.effects| ==> EffectOk(c, s, spec, o.effects[i]) && (Mutates(o.effects[i]) ==> i == 0))
    && (o.effects != [] && Mutates(o.effects[0]) ==>
          && (o.effects[0].ok <==> Acked(callId, o.step)) && (!o.effects[0].ok <==> Nacked(callId, o.step)))
    && (Acked(callId, o.step) && (Mutating(VerbOf(spec.verb)) || VerbOf(spec.verb).Desktop?) ==>
          o.effects != [] && Mutates(o.effects[0]))
    && (o.step.followup.Some? <==> |o.effects| > 1)
  }

  /**
   A screenshot shows the scope asked for, framed for the session; `not_modified` is text, and comes only
   when the offered hash is that of the pixels just captured. A follow-up is always a full picture.
   */
  ghost predicate Pictures(s: State, spec: ActionSpec, w: World, step: Step) {
    && (step.reply.Some? && step.reply.value.Picture? ==>
          var r := step.reply.value;
          && VerbOf(spec.verb).Screenshot? && r.scope == Asked(spec.scope, "screen") && (r.binary <==> s.binary && r.shot.Image?)
          && (r.shot.NotModified? ==>
                var raw := w.captureRaw(r.scope, ClampLongEdge(spec.maxLongEdge));
                w.raw && raw.Ok? && spec.ifNoneMatch == Some(w.codec.hash(raw.value.0))))
    && (step.followup.Some? && step.followup.value.Picture? ==>
          && spec.observe.Some? && step.followup.value.scope == Asked(spec.observe.value.scope, "screen")
          && step.followup.value.shot.Image? && step.followup.value.binary == s.binary)
  }

  /** A nack does nothing else. */
  ghost predicate NackIsQuiet(callId: string, step: Step) {
    Nacked(callId, step) ==> step.stream == NoStream && step.exec.None? && step.followup.None? && step.delayMs == 0
  }

  ghost predicate Good(c: Config, s: State, callId: string, spec: ActionSpec, w: World, o: Outcome) {
    && Primary(callId, o.step) && Followups(callId, spec, o.step) && Streams(s, callId, spec, w, o.step)
    && Execs(c, s, callId, spec, o.step) && Delays(spec, o.step) && Effects(c, s, callId, spec, o)
    && NackIsQuiet(callId, o.step) && Pictures(s, spec, w, o.step)
    && o.state.authed == s.authed && o.state.binary == s.binary
    && (o.state.obs != s.obs ==> VerbOf(spec.verb).Observe? && w.snapshot(spec.settleMs) == Ok(o.state.obs))
  }

  // ---- each verb ----

  lemma ResolvedIsValid(o: ObserveSpec)
    requires ResolveObserve(o).Ok?
    ensures ValidScope(ResolveObserve(o).value.0) && ValidOpts(ResolveObserve(o).value.1)
  {
    assert ValidScope("screen");
    hide ValidScope;
  }

  lemma CaptureIsValid(spec: ActionSpec)
    requires Check(spec).None? && IsCapture(VerbOf(spec.verb))
    ensures ValidScope(ScopeOf(spec.scope)) && ValidOpts(OptsOf(spec))
  {
    assert ValidScope("screen");
    hide ValidScope, VerbOf;
  }

  /** A nack before anything was called. */
  lemma NackIsGood(c: Config, s: State, callId: string, spec: ActionSpec, w: World, error: string)
    requires !VerbOf(spec.verb).Wait? || Invalid(spec)
    ensures Good(c, s, callId, spec, w, Outcome(Nack(callId, error), [], s))
  {
    hide VerbOf, Mutating;
  }

  /** An outcome without effects or pictures. */
  lemma NoEffects(c: Config, s: State, callId: string, spec: ActionSpec, w: World, o: Outcome)
    requires o.effects == [] && o.step.followup.None? && !Mutating(VerbOf(spec.verb)) && !VerbOf(spec.verb).Desktop?
    requires o.step.reply.Some? ==> !o.step.reply.value.Picture?
    ensures Effects(c, s, callId, spec, o) && Followups(callId, spec, o.step) && Pictures(s, spec, w, o.step)
  {
    hide VerbOf, Mutating;
  }

  lemma ActedEffects(c: Config, s: State, callId: string, spec: ActionSpec, w: World, e: Effect, r: Result<(), string>)
    requires Check(spec).None? && Mutates(e) && e.ok == r.Ok? && EffectOk(c, s, spec, e)
    ensures Effects(c, s, callId, spec, Acted(s, callId, spec, w, e, r))
  {
    if spec.observe.Some? {
      ResolvedIsValid(spec.observe.value);
      var (scope, opts) := ResolveObserve(spec.observe.value).value;
      assert EffectOk(c, s, spec, Capture(scope, opts));
    }
    hide VerbOf, Mutating, Check, EffectOk, ResolveObserve, ValidScope, ValidOpts;
  }

  lemma ActedStep(c: Config, s: State, callId: string, spec: ActionSpec, w: World, e: Effect, r: Result<(), string>)
    requires Check(spec).None? && (Mutating(VerbOf(spec.verb)) || VerbOf(spec.verb).Desktop?)
    ensures var o := Acted(s, callId, spec, w, e, r);
            && o.state == s && Primary(callId, o.step) && Followups(callId, spec, o.step) && Streams(s, callId, spec, w, o.step)
            && Execs(c, s, callId, spec, o.step) && Delays(spec, o.step) && NackIsQuiet(callId, o.step)
  {
    assert spec.observe.Some? ==> Mutating(VerbOf(spec.verb)) && ResolveObserve(spec.observe.value).Ok?;
    assert !VerbOf(spec.verb).StartScreencast? && !VerbOf(spec.verb).StopScreencast?;
    hide VerbOf, Mutating, Check, ResolveObserve, ValidScope, ValidOpts;
  }

  lemma ActedPictures(s: State, callId: string, spec: ActionSpec, w: World, e: Effect, r: Result<(), string>)
    requires Check(spec).None?
    ensures Pictures(s, spec, w, Acted(s, callId, spec, w, e, r).step)
  {
    assert spec.observe.Some? ==> ResolveObserve(spec.observe.value).Ok?;
    hide VerbOf, Mutating, Check, ValidScope;
  }

  lemma ActedIsGood(c: Config, s: State, callId: string, spec: ActionSpec, w: World, e: Effect, r: Result<(), string>)
    requires Check(spec).None? && Mutates(e) && e.ok == r.Ok? && EffectOk(c, s, spec, e)
    ensures Good(c, s, callId, spec, w, Acted(s, callId, spec, w, e, r))
  {
    assert Mutating(VerbOf(spec.verb)) || VerbOf(spec.verb).Desktop?;
    hide VerbOf, Mutating, Check, EffectOk, Effects, Acted, Primary, Followups, Streams, Execs, Delays, NackIsQuiet, Pictures;
    ActedEffects(c, s, callId, spec, w, e, r);
    ActedStep(c, s, callId, spec, w, e, r);
    ActedPictures(s, callId, spec, w, e, r);
  }

  lemma ShotIsPicture(s: State, callId: string, spec: ActionSpec, w: World)
    requires Check(spec).None? && VerbOf(spec.verb).Screenshot?
    ensures Pictures(s, spec, w, DoScreenshot(s, callId, spec, w).step)
  {
    hide VerbOf, Check, ValidScope;
  }

  lemma ScreenshotIsGood(c: Config, s: State, callId: string, spec: ActionSpec, w: World)
    requires Check(spec).None? && VerbOf(spec.verb).Screenshot?
    ensures Good(c, s, callId, spec, w, DoScreenshot(s, callId, spec, w))
  {
    CaptureIsValid(spec);
    assert spec.observe.None?;
    ShotIsPicture(s, callId, spec, w);
    hide VerbOf, Check, ValidScope, ValidOpts, ScreenOf, OptsOf, Screens.Screenshot, Pictures;
  }

  /** An exec request is accepted exactly with one non-empty command form, no pty and a positive timeout. */
  lemma ExecRequestIff(callId: string, spec: ActionSpec, binary: bool)
    ensures FromAction(callId, spec, binary).Ok? <==>
              && spec.pty != Some(true) && spec.timeoutMs != Some(0) && (spec.argv.Some? <==> spec.shell.None?)
              && spec.argv != Some([])
    ensures FromAction(callId, spec, binary).Ok? ==>
              var e := FromAction(callId, spec, binary).value;
              && 1 <= e.timeoutMs <= MAX_TIMEOUT_MS
              && (spec.timeoutMs.Some? && spec.timeoutMs.value <= MAX_TIMEOUT_MS ==> e.timeoutMs == spec.timeoutMs.value)
              && (e.command.Argv? <==> spec.argv.Some?)
  {
  }

  lemma ExecIsGood(c: Config, s: State, callId: string, spec: ActionSpec, w: World)
    requires Check(spec).None? && VerbOf(spec.verb).Exec?
    ensures Good(c, s, callId, spec, w, DoExec(c, s, callId, spec))
  {
    var o, r := DoExec(c, s, callId, spec), FromAction(callId, spec, s.binary);
    if !c.execEnabled || r.Err? {
      NackIsGood(c, s, callId, spec, w, o.step.reply.value.error.value);
    } else {
      hide Check;
      ExecIsAsAsked(c, s, callId, spec);
      hide VerbOf, FromAction, Execs;
      NoEffects(c, s, callId, spec, w, o);
      hide Effects, Followups, Pictures, DoExec;
      assert o.state == s && o.step.reply == (if r.value.stream then Some(Ack(callId, true, None)) else None);
    }
  }

  lemma ExecIsAsAsked(c: Config, s: State, callId: string, spec: ActionSpec)
    requires VerbOf(spec.verb).Exec? && c.execEnabled && FromAction(callId, spec, s.binary).Ok?
    ensures var o := DoExec(c, s, callId, spec);
            && Execs(c, s, callId, spec, o.step) && o.effects == [] && o.state == s
            && o.step == Step(if FromAction(callId, spec, s.binary).value.stream then Some(Ack(callId, true, None)) else None,
                              false, NoStream, 0, None, Some(FromAction(callId, spec, s.binary).value))
  {
    hide VerbOf;
  }

  lemma CastIsAsAsked(s: State, callId: string, spec: ActionSpec, w: World)
    requires Check(spec).None? && VerbOf(spec.verb).StartScreencast? && (spec.delta == Some(true) ==> w.raw)
    ensures var o := DoScreencast(s, callId, spec, w);
            && Streams(s, callId, spec, w, o.step) && o.effects == [] && o.state == s && o.step.stream.Start?
            && o.step == Accept(callId).(stream := o.step.stream)
  {
    assert spec.fps.Some? ==> FPS_MIN <= spec.fps.value <= FPS_MAX;
    hide VerbOf, Check, ValidScope, OptsOf;
    CaptureIsValid(spec);
    OptsAreAsked(spec);
    hide ValidOpts;
    assert AsAsked(s, spec, DoScreencast(s, callId, spec, w).step.stream.cast);
    hide AsAsked;
  }

  lemma ScreencastIsGood(c: Config, s: State, callId: string, spec: ActionSpec, w: World)
    requires Check(spec).None? && VerbOf(spec.verb).StartScreencast?
    ensures Good(c, s, callId, spec, w, DoScreencast(s, callId, spec, w))
  {
    var o := DoScreencast(s, callId, spec, w);
    if spec.delta == Some(true) && !w.raw {
      NackIsGood(c, s, callId, spec, w, o.step.reply.value.error.value);
    } else {
      hide VerbOf, Check, OptsOf, Streams, DoScreencast;
      CastIsAsAsked(s, callId, spec, w);
      NoEffects(c, s, callId, spec, w, o);
      hide Effects, Followups, Pictures;
    }
  }

  lemma ObserveIsGood(c: Config, s: State, callId: string, spec: ActionSpec, w: World)
    requires Check(spec).None? && VerbOf(spec.verb).Observe?
    ensures Good(c, s, callId, spec, w, DoObserve(c, s, callId, spec, w))
  {
    var o := DoObserve(c, s, callId, spec, w);
    if spec.structured == Some(false) || !c.tree {
      NackIsGood(c, s, callId, spec, w, o.step.reply.value.error.value);
    } else {
      assert spec.observe.None?;
      hide VerbOf, Check;
      assert Effects(c, s, callId, spec, o) && Followups(callId, spec, o.step);
      hide Effects, Followups;
    }
  }

  lemma ElementIsGood(c: Config, s: State, callId: string, spec: ActionSpec, w: World)
    requires Check(spec).None? && (VerbOf(spec.verb).InvokeAction? || VerbOf(spec.verb).SetValue?)
    ensures Good(c, s, callId, spec, w, DoElement(c, s, callId, spec, w))
  {
    hide VerbOf, Check, Good, Acted;
    forall error { NackIsGood(c, s, callId, spec, w, error); }
    if c.tree && spec.target.Some? && spec.target.value.ElementRef? && spec.target.value.id in s.obs {
      var backendId := s.obs[spec.target.value.id].backendId;
      if VerbOf(spec.verb).InvokeAction? {
        var r := w.invoke(backendId, spec.text);
        ActedIsGood(c, s, callId, spec, w, Invoke(backendId, spec.text, r.Ok?), r);
      } else if spec.text.Some? {
        var r := w.setValue(backendId, spec.text.value);
        ActedIsGood(c, s, callId, spec, w, Assign(backendId, spec.text.value, r.Ok?), r);
      }
    }
  }

  lemma DesktopIsGood(c: Config, s: State, callId: string, spec: ActionSpec, w: World)
    requires Check(spec).None? && (VerbOf(spec.verb).Desktop? || (VerbOf(spec.verb).LaunchApp? && c.execEnabled))
    ensures Good(c, s, callId, spec, w, DoDesktop(s, callId, spec, w))
  {
    hide VerbOf, Check, Good, Acted;
    match Located(s, spec.target)
    case Err(e) => NackIsGood(c, s, callId, spec, w, e);
    case Ok(target) =>
      var given := spec.(target := target);
      var r := w.execute(given);
      ActedIsGood(c, s, callId, spec, w, Execute(given, r.Ok?), r);
  }

  lemma PlainIsGood(c: Config, s: State, callId: string, spec: ActionSpec, w: World)
    requires Check(spec).None? && (VerbOf(spec.verb).StopScreencast? || VerbOf(spec.verb).Wait?)
    ensures Good(c, s, callId, spec, w, Dispatch(c, s, callId, Ok(spec), w))
  {
    NoEffects(c, s, callId, spec, w, Dispatch(c, s, callId, Ok(spec), w));
    CheckIffInvalid(spec);
    hide Invalid, VerbOf, Check, Effects, Followups, Pictures;
  }

  lemma ClipboardIsGood(c: Config, s: State, callId: string, spec: ActionSpec, w: World)
    requires Check(spec).None? && VerbOf(spec.verb).ClipboardGet?
    ensures Good(c, s, callId, spec, w, Dispatch(c, s, callId, Ok(spec), w))
  {
    var o := Dispatch(c, s, callId, Ok(spec), w);
    assert o == match w.clipboard
                case Ok(text) => Outcome(Says(ResultOk(callId, text)), [ReadClipboard], s)
                case Err(e) => Outcome(Nack(callId, e), [ReadClipboard], s);
    assert spec.observe.None?;
    hide VerbOf, Check, Dispatch, ValidScope;
    assert Effects(c, s, callId, spec, o);
    hide Effects;
  }

  /** Every outcome of an action is a good one; an invalid action is a nack that touches nothing. */
  lemma DispatchIsGood(c: Config, s: State, callId: string, spec: ActionSpec, w: World)
    ensures Good(c, s, callId, spec, w, Dispatch(c, s, callId, Ok(spec), w))
    ensures Invalid(spec) ==>
              var o := Dispatch(c, s, callId, Ok(spec), w);
              Nacked(callId, o.step) && o.effects == [] && o.state == s
  {
    CheckIffInvalid(spec);
    hide Good, Invalid, Check, VerbOf;
    if Check(spec).Some? {
      NackIsGood(c, s, callId, spec, w, Check(spec).value);
    } else {
      hide DoScreenshot, DoExec, DoScreencast, DoObserve, DoElement, DoDesktop;
      match VerbOf(spec.verb)
      case Screenshot => ScreenshotIsGood(c, s, callId, spec, w);
      case Exec => ExecIsGood(c, s, callId, spec, w);
      case StartScreencast => ScreencastIsGood(c, s, callId, spec, w);
      case Observe => ObserveIsGood(c, s, callId, spec, w);
      case InvokeAction => ElementIsGood(c, s, callId, spec, w);
      case SetValue => ElementIsGood(c, s, callId, spec, w);
      case LaunchApp =>
        if c.execEnabled {
          DesktopIsGood(c, s, callId, spec, w);
        } else {
          NackIsGood(c, s, callId, spec, w, "launch_app is disabled by server policy");
        }
      case Desktop(_) => DesktopIsGood(c, s, callId, spec, w);
      case ClipboardGet => ClipboardIsGood(c, s, callId, spec, w);
      case StopScreencast => PlainIsGood(c, s, callId, spec, w);
      case Wait => PlainIsGood(c, s, callId, spec, w);
    }
  }

  /** What every action gets: a good outcome, and exactly the answer it must have. */
  ghost predicate Proper(c: Config, s: State, callId: string, spec: ActionSpec, w: World, o: Outcome) {
    Good(c, s, callId, spec, w, o) && Exact(c, s, callId, spec, w, o)
  }

  lemma DispatchIsProper(c: Config, s: State, callId: string, spec: ActionSpec, w: World)
    ensures Proper(c, s, callId, spec, w, Dispatch(c, s, callId, Ok(spec), w))
    ensures Invalid(spec) ==>
              var o := Dispatch(c, s, callId, Ok(spec), w);
              Nacked(callId, o.step) && o.effects == [] && o.state == s
  {
    hide Good, Exact, Dispatch, Invalid;
    DispatchIsGood(c, s, callId, spec, w);
    DispatchIsExact(c, s, callId, spec, w);
  }

  // ---- whole sessions ----

  /** One inbound message, and how the executor and the tree answer while it is handled. */
  datatype Input = Input(message: Result<Message, string>, world: World)

  predicate Closed(outs: seq<Outcome>) { outs != [] && outs[|outs| - 1].step.close }

  function Last(outs: seq<Outcome>): State { if outs == [] then NEW else outs[|outs| - 1].state }

  /** The outcomes of a session's messages, up to the one that closes it. */
  function Play(c: Config, inputs: seq<Input>): seq<Outcome> {
    if inputs == [] then []
    else
      var front, last := Play(c, inputs[..|inputs| - 1]), inputs[|inputs| - 1];
      if Closed(front) then front else front + [OnText(c, Last(front), last.message, last.world)]
  }

  /** The session's state when message i arrives. */
  function Before(outs: seq<Outcome>, i: nat): State
    requires i <= |outs|
  {
    if i == 0 then NEW else outs[i - 1].state
  }

  /** Nothing but the reply: no call that changes the guest, no stream, exec, follow-up or delay. */
  ghost predicate OnlyReplies(o: Outcome) {
    && (forall i :: 0 <= i < |o.effects| ==> !Mutates(o.effects[i]))
    && o.step.stream == NoStream && o.step.exec.None? && o.step.followup.None? && o.step.delayMs == 0
  }

  /** What holds of the outcome of message i of a session. */
  ghost predicate Kept(c: Config, first: Result<Message, string>, i: nat, s: State, m: Result<Message, string>, w: World, o: Outcome) {
    && (i == 0 ==> s == NEW && o.effects == [] && OnlyReplies(o) && (o.step.close <==> !Opens(c, first)))
    && (i > 0 ==> Opens(c, first) && s.authed && s.binary == first.value.acceptBinary)
    && (i > 0 && m.Ok? && m.value.Action? && m.value.action.Ok? ==>
          Proper(c, s, m.value.callId, m.value.action.value, w, o))
    && (i > 0 && m.Ok? && m.value.Action? && m.value.action.Err? ==> Nacked(m.value.callId, o.step) && o.effects == [] && OnlyReplies(o))
    && (!(i > 0 && m.Ok? && m.value.Action?) ==> OnlyReplies(o) && Heard(c, s, m, w, o))
    && (!o.step.close ==> o.state.authed && o.state.binary == first.value.acceptBinary)
  }

  lemma FirstIsKept(c: Config, m: Result<Message, string>, w: World)
    ensures Kept(c, m, 0, NEW, m, w, OnText(c, NEW, m, w))
  {
    MessageIsHeard(c, NEW, m, w);
    hide Dispatch, Ask, Heard;
  }

  lemma LaterIsKept(c: Config, first: Result<Message, string>, i: nat, s: State, m: Result<Message, string>, w: World)
    requires i > 0 && Opens(c, first) && s.authed && s.binary == first.value.acceptBinary
    ensures Kept(c, first, i, s, m, w, OnText(c, s, m, w))
  {
    if !(m.Ok? && m.value.Action?) {
      MessageIsHeard(c, s, m, w);
    }
    hide Heard, Exact;
    if m.Ok? && m.value.Action? && m.value.action.Ok? {
      DispatchIsProper(c, s, m.value.callId, m.value.action.value, w);
      assert Good(c, s, m.value.callId, m.value.action.value, w, OnText(c, s, m, w));
      hide Dispatch, Effects, Followups, Streams, Execs, Delays, OnlyReplies, Opens, NackIsQuiet;
    }
    hide Good, Handshake, Opens;
  }

  ghost predicate AllKept(c: Config, inputs: seq<Input>, outs: seq<Outcome>) {
    && |outs| <= |inputs| && (!Closed(outs) ==> |outs| == |inputs|)
    && forall i :: 0 <= i < |outs| ==>
         Kept(c, inputs[0].message, i, Before(outs, i), inputs[i].message, inputs[i].world, outs[i])
  }

  /**
   Over every session: nothing but closing happens before an accepted hello, which must come first;
   from then on authentication and the binary mode never change, and every action gets a good outcome and
   exactly the answer it must have; every other message is answered as it must be.
   */
  lemma {:induction false} SessionIsKept(c: Config, inputs: seq<Input>)
    ensures AllKept(c, inputs, Play(c, inputs))
  {
    if inputs != [] {
      var n := |inputs| - 1;
      SessionIsKept(c, inputs[..n]);
      PlayIsKept(c, inputs, Play(c, inputs[..n]));
    }
  }

  lemma PlayIsKept(c: Config, inputs: seq<Input>, front: seq<Outcome>)
    requires inputs != [] && AllKept(c, inputs[..|inputs| - 1], front) && front == Play(c, inputs[..|inputs| - 1])
    ensures AllKept(c, inputs, Play(c, inputs))
  {
    var n := |inputs| - 1;
    var o := OnText(c, Last(front), inputs[n].message, inputs[n].world);
    assert Play(c, inputs) == if Closed(front) then front else front + [o];
    hide Play, OnText;
    if Closed(front) {
      hide Kept;
    } else {
      NextIsKept(c, inputs, front);
      hide Kept;
      KeptAppend(c, inputs, front, o);
    }
  }

  lemma NextIsKept(c: Config, inputs: seq<Input>, front: seq<Outcome>)
    requires inputs != [] && AllKept(c, inputs[..|inputs| - 1], front) && !Closed(front)
    ensures var n := |inputs| - 1;
            Kept(c, inputs[0].message, n, Last(front), inputs[n].message, inputs[n].world,
                 OnText(c, Last(front), inputs[n].message, inputs[n].world))
  {
    hide OnText;
    var n := |inputs| - 1;
    var m, w := inputs[n].message, inputs[n].world;
    if n == 0 {
      FirstIsKept(c, m, w);
    } else {
      assert Kept(c, inputs[0].message, n - 1, Before(front, n - 1), inputs[n - 1].message, inputs[n - 1].world, front[n - 1]);
      hide Good, Exact, Heard, OnlyReplies, Opens;
      LaterIsKept(c, inputs[0].message, n, Last(front), m, w);
    }
  }

  lemma KeptAppend(c: Config, inputs: seq<Input>, front: seq<Outcome>, o: Outcome)
    requires inputs != [] && AllKept(c, inputs[..|inputs| - 1], front) && |front| == |inputs| - 1
    requires Kept(c, inputs[0].message, |front|, Last(front), inputs[|front|].message, inputs[|front|].world, o)
    ensures AllKept(c, inputs, front + [o])
  {
    hide Kept;
    var outs := front + [o];
    forall i | 0 <= i < |outs|
      ensures Kept(c, inputs[0].message, i, Before(outs, i), inputs[i].message, inputs[i].world, outs[i])
    {
      if i < |front| {
        assert Before(outs, i) == Before(front, i) && outs[i] == front[i] && inputs[..|front|][i] == inputs[i];
      }
    }
  }

  /**
   The executor is called at most once per action, only in an authenticated session, never with an
   element reference as its target, and never for `launch_app` when exec is disabled; nor does any exec
   get through then.
   */
  lemma {:induction false} ExecutionIsGated(c: Config, inputs: seq<Input>, i: nat, k: nat)
    requires i < |Play(c, inputs)| && i < |inputs|
    requires k < |Play(c, inputs)[i].effects| && Play(c, inputs)[i].effects[k].Execute?
    ensures k == 0 && i > 0 && Opens(c, inputs[0].message)
    ensures var given := Play(c, inputs)[i].effects[k].spec;
            && !(given.target.Some? && given.target.value.ElementRef?)
            && (c.execEnabled || !VerbOf(given.verb).LaunchApp?)
  {
    SessionIsKept(c, inputs);
    var outs := Play(c, inputs);
    var m := inputs[i].message;
    assert Kept(c, inputs[0].message, i, Before(outs, i), m, inputs[i].world, outs[i]);
    hide Play, VerbOf, Opens, Followups, Streams, Execs, Delays, Exact, Heard;
    if m.Ok? && m.value.Action? && m.value.action.Ok? {
      assert EffectOk(c, Before(outs, i), m.value.action.value, outs[i].effects[k]);
    }
  }

  lemma NoExecWhenDisabled(c: Config, inputs: seq<Input>, i: nat)
    requires i < |Play(c, inputs)| && !c.execEnabled
    ensures Play(c, inputs)[i].step.exec.None?
  {
    SessionIsKept(c, inputs);
    var outs := Play(c, inputs);
    assert Kept(c, inputs[0].message, i, Before(outs, i), inputs[i].message, inputs[i].world, outs[i]);
    hide Play, VerbOf, Opens, Followups, Streams, Effects, Delays, Exact, Heard;
  }
}
