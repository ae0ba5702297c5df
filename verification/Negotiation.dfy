/**
 Content negotiation of screenshots: sessions that share a frame cache offer the hash of a frame they
 hold, and must end up with what a plain capture would have given them.
 */
module Negotiation {
  import opened Results
  import opened Screens

  /** The capture parameters as a cache key. */
  datatype Key = Key(scope: string, format: string, quality: Option<int>, maxLongEdge: Option<int>)

  /** The options the server resolves a request with this key to. */
  function OptsOf(key: Key): Opts {
    Opts(ClampLongEdge(key.maxLongEdge), if key.format == "jpeg" then Jpeg else Png,
         if key.quality.Some? then key.quality.value else DEFAULT_JPEG_QUALITY)
  }

  datatype Frame = Frame(data: Bytes, meta: Meta)

  datatype Candidate = Candidate(hash: string, frame: Frame)

  /** A session between screenshots, waiting for the server, or holding its reply. */
  datatype Phase =
    | Idle
    | Asked(key: Key, dedup: bool, candidate: Option<Candidate>)
    | Answered(key: Key, dedup: bool, candidate: Option<Candidate>, screen: Screen, shot: Shot)

  datatype Client = Client(lastShot: map<Key, Candidate>, phase: Phase)

  /** What one screenshot returned, and what was on the screen for it. */
  datatype Done = Done(key: Key, offered: Option<string>, screen: Screen, result: Option<Frame>, deduped: bool)

  /** `cache` and `last` are the shared FrameCache, `clients` the sessions (absent ones are new). */
  datatype State = State(
    cache: map<(Key, string), Frame>, last: map<Key, string>, clients: map<nat, Client>, log: seq<Done>)

  const START := State(map[], map[], map[], [])

  datatype Step =
    | Ask(id: nat, key: Key, dedup: bool)
    | Serve(id: nat, screen: Screen)
    | Receive(id: nat)
    | Evict(key: Key, hash: string)

  function ClientOf(s: State, id: nat): Client {
    if id in s.clients then s.clients[id] else Client(map[], Idle)
  }

  /** `FrameCache.candidate`. */
  function Cached(s: State, key: Key): Option<Candidate> {
    if key in s.last && (key, s.last[key]) in s.cache then Some(Candidate(s.last[key], s.cache[(key, s.last[key])]))
    else None
  }

  /** The session's own last frame, else the shared cache's candidate. */
  function Offer(s: State, id: nat, key: Key): Option<Candidate> {
    if key in ClientOf(s, id).lastShot then Some(ClientOf(s, id).lastShot[key]) else Cached(s, key)
  }

  function HashOf(c: Option<Candidate>): Option<string> {
    match c case None => None case Some(c) => Some(c.hash)
  }

  ghost predicate Enabled(s: State, step: Step, frames: set<Raw>) {
    match step
    case Ask(id, _, _) => ClientOf(s, id).phase.Idle?
    case Serve(id, screen) => ClientOf(s, id).phase.Asked? && (screen.Pixels? ==> screen.raw in frames)
    case Receive(id) => ClientOf(s, id).phase.Answered?
    case Evict(_, _) => true
  }

  function Either<T>(newer: Option<T>, held: Option<T>): Option<T> {
    if newer.Some? then newer else held
  }

  /** What a reply gives the caller: a fresh image, or the held frame with the reply's own metadata on it. */
  function ResultOf(candidate: Option<Candidate>, shot: Shot): Option<Frame> {
    match shot
    case Image(data, _, meta) => Some(Frame(data, meta))
    case NotModified(_, meta) =>
      (match candidate
       case None => None
       case Some(c) => Some(Frame(c.frame.data, Meta(Either(meta.display, c.frame.meta.display),
                                                     Either(meta.pointer, c.frame.meta.pointer)))))
    case ShotError(_) => None
  }

  function SetClient(s: State, id: nat, c: Client): State { s.(clients := s.clients[id := c]) }

  /** What the session keeps of a reply: a new hashed frame when it deduplicates, or the confirmed one. */
  function Kept(p: Phase): Option<Candidate>
    requires p.Answered?
  {
    match p.shot
    case Image(data, Some(hash), meta) => if p.dedup then Some(Candidate(hash, Frame(data, meta))) else None
    case NotModified(_, _) => p.candidate
    case _ => None
  }

  function Keep(c: Client, key: Key, kept: Option<Candidate>): Client {
    Client(if kept.Some? then c.lastShot[key := kept.value] else c.lastShot, Idle)
  }

  /** `put` a new frame, or `touch` a confirmed one if it is still there. */
  function Cache(s: State, key: Key, kept: Option<Candidate>, put: bool): State {
    if kept.None? then s
    else
      var slot := (key, kept.value.hash);
      var s' := if put then s.(cache := s.cache[slot := kept.value.frame]) else s;
      if slot in s'.cache then s'.(last := s'.last[key := kept.value.hash]) else s'
  }

  /** The session takes its reply. */
  function Received(s: State, id: nat): State
    requires ClientOf(s, id).phase.Answered?
  {
    var c := ClientOf(s, id);
    var p := c.phase;
    var done := Done(p.key, HashOf(p.candidate), p.screen, ResultOf(p.candidate, p.shot), p.shot.NotModified?);
    SetClient(Cache(s, p.key, Kept(p), p.shot.Image?), id, Keep(c, p.key, Kept(p))).(log := s.log + [done])
  }

  function Next(s: State, step: Step, codec: Codec): State
    requires step.Serve? ==> ClientOf(s, step.id).phase.Asked?
    requires step.Receive? ==> ClientOf(s, step.id).phase.Answered?
  {
    match step
    case Ask(id, key, dedup) =>
      SetClient(s, id, ClientOf(s, id).(phase := Asked(key, dedup, if dedup then Offer(s, id, key) else None)))
    case Serve(id, screen) =>
      var p := ClientOf(s, id).phase;
      var shot := Screenshot(codec, OptsOf(p.key), HashOf(p.candidate), screen);
      SetClient(s, id, ClientOf(s, id).(phase := Answered(p.key, p.dedup, p.candidate, screen, shot)))
    case Receive(id) => Received(s, id)
    case Evict(key, hash) =>
      s.(cache := s.cache - {(key, hash)},
         last := if key in s.last && s.last[key] == hash then s.last - {key} else s.last)
  }

  ghost predicate Runs(s: State, steps: seq<Step>, codec: Codec, frames: set<Raw>, s': State)
    decreases |steps|
  {
    if steps == [] then s' == s
    else Enabled(s, steps[0], frames) && Runs(Next(s, steps[0], codec), steps[1..], codec, frames, s')
  }

  // ---- what is held is what was on some screen ----

  ghost predicate Genuine(codec: Codec, frames: set<Raw>, key: Key, c: Candidate) {
    exists raw :: raw in frames && codec.hash(raw) == c.hash
                  && codec.encode(raw, OptsOf(key).(maxLongEdge := None)) == Ok(c.frame.data)
  }

  ghost predicate PhaseInv(codec: Codec, frames: set<Raw>, p: Phase) {
    && (!p.Idle? && p.candidate.Some? ==> Genuine(codec, frames, p.key, p.candidate.value))
    && (p.Answered? ==>
          && p.shot == Screenshot(codec, OptsOf(p.key), HashOf(p.candidate), p.screen)
          && (p.screen.Pixels? ==> p.screen.raw in frames))
  }

  ghost predicate ClientInv(codec: Codec, frames: set<Raw>, c: Client) {
    && (forall key :: key in c.lastShot ==> Genuine(codec, frames, key, c.lastShot[key]))
    && PhaseInv(codec, frames, c.phase)
  }

  /** The screen's own picture, in the coding that the key asks for. */
  function Plain(codec: Codec, key: Key, screen: Screen): Option<Bytes> {
    match screen
    case Pixels(raw, _) =>
      var opts := Opts(None, if key.format == "jpeg" then Jpeg else Png, if key.quality.Some? then key.quality.value else 80);
      if codec.encode(raw, opts).Ok? then Some(codec.encode(raw, opts).value) else None
    case Encoded(image, _) => if image.Ok? then Some(image.value) else None
    case NoCapture(_) => None
  }

  /** The screen's own picture, and not modified answered exactly on the current frame's hash. */
  ghost predicate Faithful(codec: Codec, d: Done) {
    && Plain(codec, d.key, d.screen) == (if d.result.Some? then Some(d.result.value.data) else None)
    && (d.deduped <==> d.screen.Pixels? && d.offered == Some(codec.hash(d.screen.raw)))
  }

  ghost predicate AllFaithful(codec: Codec, log: seq<Done>) {
    forall i :: 0 <= i < |log| ==> Faithful(codec, log[i])
  }

  ghost predicate CacheInv(codec: Codec, frames: set<Raw>, cache: map<(Key, string), Frame>) {
    forall e :: e in cache ==> Genuine(codec, frames, e.0, Candidate(e.1, cache[e]))
  }

  ghost predicate ClientsInv(codec: Codec, frames: set<Raw>, clients: map<nat, Client>) {
    forall id :: id in clients ==> ClientInv(codec, frames, clients[id])
  }

  ghost predicate Inv(codec: Codec, frames: set<Raw>, s: State) {
    CacheInv(codec, frames, s.cache) && ClientsInv(codec, frames, s.clients) && AllFaithful(codec, s.log)
  }

  /** Frames that hash alike encode alike: in particular when the hash is injective on them. */
  ghost predicate HashDecides(codec: Codec, frames: set<Raw>) {
    forall f, g, key: Key :: f in frames && g in frames ==> Alike(codec, f, g, key)
  }

  predicate Alike(codec: Codec, f: Raw, g: Raw, key: Key) {
    var opts := OptsOf(key).(maxLongEdge := None);
    codec.hash(f) == codec.hash(g) && codec.encode(f, opts).Ok? ==> codec.encode(g, opts) == codec.encode(f, opts)
  }

  /** What a session gets out of its reply is faithful. */
  lemma ReplyIsFaithful(codec: Codec, frames: set<Raw>, p: Phase)
    requires HashDecides(codec, frames) && p.Answered? && PhaseInv(codec, frames, p)
    ensures Faithful(codec, Done(p.key, HashOf(p.candidate), p.screen, ResultOf(p.candidate, p.shot), p.shot.NotModified?))
  {
    if p.shot.NotModified? {
      var raw :| raw in frames && codec.hash(raw) == p.candidate.value.hash
                 && codec.encode(raw, OptsOf(p.key).(maxLongEdge := None)) == Ok(p.candidate.value.frame.data);
      assert Alike(codec, raw, p.screen.raw, p.key);
    }
  }

  lemma KeptIsGenuine(codec: Codec, frames: set<Raw>, p: Phase)
    requires p.Answered? && PhaseInv(codec, frames, p) && Kept(p).Some?
    ensures Genuine(codec, frames, p.key, Kept(p).value)
  {
    if p.shot.Image? {
      assert codec.hash(p.screen.raw) == p.shot.hash.value;
    }
  }

  lemma ClientIs(codec: Codec, frames: set<Raw>, s: State, id: nat)
    requires ClientsInv(codec, frames, s.clients)
    ensures ClientInv(codec, frames, ClientOf(s, id))
  {
  }

  /** The log grows by a faithful entry. */
  lemma LogKeeps(codec: Codec, frames: set<Raw>, s: State, id: nat)
    requires HashDecides(codec, frames) && Inv(codec, frames, s) && ClientOf(s, id).phase.Answered?
    ensures AllFaithful(codec, Received(s, id).log)
  {
    ClientIs(codec, frames, s, id);
    ReplyIsFaithful(codec, frames, ClientOf(s, id).phase);
    hide Faithful, HashDecides, Screenshot, ResultOf, CacheInv, ClientsInv, ClientInv, ClientOf;
  }

  lemma CacheKeeps(codec: Codec, frames: set<Raw>, s: State, key: Key, kept: Option<Candidate>, put: bool)
    requires CacheInv(codec, frames, s.cache) && (kept.Some? ==> Genuine(codec, frames, key, kept.value))
    ensures CacheInv(codec, frames, Cache(s, key, kept, put).cache) && Cache(s, key, kept, put).clients == s.clients
  {
    hide Genuine;
    if kept.Some? {
      assert kept.value == Candidate(kept.value.hash, kept.value.frame);
    }
  }

  lemma ClientKeeps(codec: Codec, frames: set<Raw>, clients: map<nat, Client>, id: nat, c: Client)
    requires ClientsInv(codec, frames, clients) && ClientInv(codec, frames, c)
    ensures ClientsInv(codec, frames, clients[id := c])
  {
    hide ClientInv;
  }

  lemma KeepKeeps(codec: Codec, frames: set<Raw>, c: Client, key: Key, kept: Option<Candidate>)
    requires ClientInv(codec, frames, c) && (kept.Some? ==> Genuine(codec, frames, key, kept.value))
    ensures ClientInv(codec, frames, Keep(c, key, kept))
  {
    hide Genuine;
  }

  lemma ReceiveKeeps(codec: Codec, frames: set<Raw>, s: State, id: nat)
    requires HashDecides(codec, frames) && Inv(codec, frames, s) && ClientOf(s, id).phase.Answered?
    ensures Inv(codec, frames, Received(s, id))
  {
    ClientIs(codec, frames, s, id);
    LogKeeps(codec, frames, s, id);
    var c := ClientOf(s, id);
    var p, kept := c.phase, Kept(c.phase);
    if kept.Some? {
      KeptIsGenuine(codec, frames, p);
    }
    hide AllFaithful, HashDecides, CacheInv, ClientInv, ClientsInv, Genuine, Kept, Keep, Cache, ResultOf;
    CacheKeeps(codec, frames, s, p.key, kept, p.shot.Image?);
    KeepKeeps(codec, frames, c, p.key, kept);
    ClientKeeps(codec, frames, s.clients, id, Keep(c, p.key, kept));
  }

  lemma InvStep(codec: Codec, frames: set<Raw>, s: State, step: Step)
    requires HashDecides(codec, frames) && Inv(codec, frames, s) && Enabled(s, step, frames)
    ensures Inv(codec, frames, Next(s, step, codec))
  {
    hide Genuine, Faithful, HashDecides, Screenshot, ResultOf;
    if step.Receive? {
      ReceiveKeeps(codec, frames, s, step.id);
    }
  }

  lemma {:induction false} InvRun(codec: Codec, frames: set<Raw>, s: State, steps: seq<Step>, s': State)
    requires HashDecides(codec, frames) && Inv(codec, frames, s) && Runs(s, steps, codec, frames, s')
    ensures Inv(codec, frames, s')
    decreases |steps|
  {
    hide Inv, HashDecides;
    if steps != [] {
      InvStep(codec, frames, s, steps[0]);
      hide Next, Enabled;
      InvRun(codec, frames, Next(s, steps[0], codec), steps[1..], s');
    }
  }

  // ---- transparency ----

  /** Whatever sessions do and whatever is evicted, every screenshot of these frames is faithful. */
  ghost predicate Transparent(codec: Codec, frames: set<Raw>) {
    forall steps, s :: Runs(START, steps, codec, frames, s) ==> AllFaithful(codec, s.log)
  }

  /** Negotiation is transparent exactly when frames that hash alike encode alike. */
  lemma TransparentIff(codec: Codec, frames: set<Raw>)
    ensures Transparent(codec, frames) <==> HashDecides(codec, frames)
  {
    if HashDecides(codec, frames) {
      hide Runs, HashDecides, AllFaithful;
      forall steps, s | Runs(START, steps, codec, frames, s) ensures AllFaithful(codec, s.log) {
        StartInv(codec, frames);
        InvRun(codec, frames, START, steps, s);
        assert Inv(codec, frames, s);
      }
    } else {
      var f, g, key: Key :| f in frames && g in frames && !Alike(codec, f, g, key);
      var steps, s := Mistaken(codec, frames, f, g, key);
      hide Runs;
      assert Runs(START, steps, codec, frames, s) && !AllFaithful(codec, s.log);
    }
  }

  /** In particular with a hash that is injective on the frames seen. */
  lemma InjectiveIsTransparent(codec: Codec, frames: set<Raw>)
    requires forall f, g :: f in frames && g in frames && codec.hash(f) == codec.hash(g) ==> f == g
    ensures Transparent(codec, frames)
  {
    TransparentIff(codec, frames);
    hide Transparent;
  }

  lemma StartInv(codec: Codec, frames: set<Raw>)
    ensures Inv(codec, frames, START)
  {
  }

  const NO_META := Meta(None, None)

  lemma RunsCons(s: State, step: Step, rest: seq<Step>, codec: Codec, frames: set<Raw>, s': State)
    requires Enabled(s, step, frames) && Runs(Next(s, step, codec), rest, codec, frames, s')
    ensures Runs(s, [step] + rest, codec, frames, s')
  {
    hide Enabled, Next;
    assert ([step] + rest)[1..] == rest;
  }

  /** Two screenshots of one session, which offers the first frame for the second. */
  lemma TwoShots(codec: Codec, frames: set<Raw>, key: Key, f: Raw, first: Meta, g: Raw, second: Meta)
    returns (steps: seq<Step>, s: State)
    requires f in frames && g in frames && codec.encode(f, OptsOf(key).(maxLongEdge := None)).Ok?
    ensures Runs(START, steps, codec, frames, s) && |s.log| == 2
    ensures var held := Candidate(codec.hash(f), Frame(codec.encode(f, OptsOf(key).(maxLongEdge := None)).value, first));
            var shot := Screenshot(codec, OptsOf(key), Some(held.hash), Pixels(g, second));
            s.log[1] == Done(key, Some(held.hash), Pixels(g, second), ResultOf(Some(held), shot), shot.NotModified?)
  {
    var s1 := Next(START, Ask(0, key, true), codec);
    var s2 := Next(s1, Serve(0, Pixels(f, first)), codec);
    var s3 := Next(s2, Receive(0), codec);
    hide Runs, Screenshot;
    var rest: seq<Step>;
    s, rest := Again(codec, frames, s3, key, g, second);
    RunsCons(s2, Receive(0), rest, codec, frames, s);
    RunsCons(s1, Serve(0, Pixels(f, first)), [Receive(0)] + rest, codec, frames, s);
    RunsCons(START, Ask(0, key, true), [Serve(0, Pixels(f, first))] + ([Receive(0)] + rest), codec, frames, s);
    steps := [Ask(0, key, true)] + ([Serve(0, Pixels(f, first))] + ([Receive(0)] + rest));
  }

  lemma Again(codec: Codec, frames: set<Raw>, s: State, key: Key, g: Raw, meta: Meta) returns (s': State, steps: seq<Step>)
    requires g in frames && ClientOf(s, 0).phase.Idle? && key in ClientOf(s, 0).lastShot
    ensures Runs(s, steps, codec, frames, s')
    ensures var held := ClientOf(s, 0).lastShot[key];
            var shot := Screenshot(codec, OptsOf(key), Some(held.hash), Pixels(g, meta));
            s'.log == s.log + [Done(key, Some(held.hash), Pixels(g, meta), ResultOf(Some(held), shot), shot.NotModified?)]
  {
    hide Screenshot;
    var s1 := Next(s, Ask(0, key, true), codec);
    var s2 := Next(s1, Serve(0, Pixels(g, meta)), codec);
    s' := Next(s2, Receive(0), codec);
    assert Runs(s', [], codec, frames, s');
    hide Runs;
    RunsCons(s2, Receive(0), [], codec, frames, s');
    RunsCons(s1, Serve(0, Pixels(g, meta)), [Receive(0)] + [], codec, frames, s');
    RunsCons(s, Ask(0, key, true), [Serve(0, Pixels(g, meta))] + ([Receive(0)] + []), codec, frames, s');
    steps := [Ask(0, key, true)] + ([Serve(0, Pixels(g, meta))] + ([Receive(0)] + []));
  }

  // ---- which frame is offered ----

  ghost predicate Encodes(codec: Codec, key: Key, raw: Raw) { codec.encode(raw, OptsOf(key).(maxLongEdge := None)).Ok? }

  /** What one deduplicating screenshot leaves behind: the session remembers its frame, and so does the cache if it was new. */
  ghost predicate Shot(codec: Codec, s: State, id: nat, key: Key, g: Raw, meta: Meta, s': State) {
    && (forall other :: other != id ==> ClientOf(s', other) == ClientOf(s, other))
    && |s'.log| == |s.log| + 1 && s'.log[..|s.log|] == s.log
    && var d, c := s'.log[|s.log|], ClientOf(s', id);
       && d.key == key && d.screen == Pixels(g, meta) && (d.deduped <==> d.offered == Some(codec.hash(g)))
       && d.offered == HashOf(Offer(s, id, key))
       && c.phase.Idle? && key in c.lastShot && c.lastShot[key].hash == codec.hash(g)
       && (!d.deduped ==> HashOf(Cached(s', key)) == Some(codec.hash(g)))
  }

  lemma ReplyLeaves(codec: Codec, s: State, s': State, id: nat, key: Key, g: Raw, meta: Meta)
    requires Encodes(codec, key, g)
    requires var held := Offer(s, id, key);
             var shot := Screenshot(codec, OptsOf(key), HashOf(held), Pixels(g, meta));
             s' == SetClient(s, id, Client(ClientOf(s, id).lastShot, Answered(key, true, held, Pixels(g, meta), shot)))
    ensures Shot(codec, s, id, key, g, meta, Received(s', id))
  {
    hide OptsOf, Offer;
  }

  lemma OneShot(codec: Codec, frames: set<Raw>, s: State, id: nat, key: Key, g: Raw, meta: Meta)
    returns (s': State, steps: seq<Step>)
    requires g in frames && ClientOf(s, id).phase.Idle? && Encodes(codec, key, g)
    ensures Runs(s, steps, codec, frames, s') && Shot(codec, s, id, key, g, meta, s')
  {
    var s1 := Next(s, Ask(id, key, true), codec);
    var s2 := Next(s1, Serve(id, Pixels(g, meta)), codec);
    s' := Next(s2, Receive(id), codec);
    assert Runs(s', [], codec, frames, s');
    hide Runs, Shot, Encodes, Offer, OptsOf, Screenshot;
    assert s2 == SetClient(s, id, Client(ClientOf(s, id).lastShot, ClientOf(s2, id).phase));
    ReplyLeaves(codec, s, s2, id, key, g, meta);
    RunsCons(s2, Receive(id), [], codec, frames, s');
    RunsCons(s1, Serve(id, Pixels(g, meta)), [Receive(id)] + [], codec, frames, s');
    RunsCons(s, Ask(id, key, true), [Serve(id, Pixels(g, meta))] + ([Receive(id)] + []), codec, frames, s');
    steps := [Ask(id, key, true)] + ([Serve(id, Pixels(g, meta))] + ([Receive(id)] + []));
  }

  lemma {:induction false} RunsConcat(
    s: State, first: seq<Step>, mid: State, rest: seq<Step>, codec: Codec, frames: set<Raw>, s': State)
    requires Runs(s, first, codec, frames, mid) && Runs(mid, rest, codec, frames, s')
    ensures Runs(s, first + rest, codec, frames, s')
    decreases |first|
  {
    hide Next;
    if first == [] {
      assert first + rest == rest;
    } else {
      RunsConcat(Next(s, first[0], codec), first[1..], mid, rest, codec, frames, s');
      assert (first + rest)[1..] == first[1..] + rest;
    }
  }

  /**
   A session that has taken no screenshot yet profits from another's, through the shared cache; and one
   that has offers its own last frame, whatever others have put into the cache since.
   */
  lemma OwnThenShared(codec: Codec, frames: set<Raw>, key: Key, f: Raw, g: Raw, meta: Meta)
    returns (steps: seq<Step>, s: State)
    requires f in frames && g in frames && codec.hash(f) != codec.hash(g) && Encodes(codec, key, f) && Encodes(codec, key, g)
    ensures Runs(START, steps, codec, frames, s) && |s.log| == 4
    ensures s.log[0].offered == None && !s.log[0].deduped                                    // session 0 sees f
    ensures s.log[1].offered == Some(codec.hash(f)) && !s.log[1].deduped                     // session 1 sees g
    ensures s.log[2].offered == Some(codec.hash(f)) && s.log[2].deduped                      // session 0 sees f again
    ensures s.log[3].offered == Some(codec.hash(g)) && s.log[3].deduped                      // session 1 sees g again
  {
    var s1, first := OneShot(codec, frames, START, 0, key, f, meta);
    var s2, second := OneShot(codec, frames, s1, 1, key, g, meta);
    var s3, third := OneShot(codec, frames, s2, 0, key, f, meta);
    var s4, fourth := OneShot(codec, frames, s3, 1, key, g, meta);
    hide Runs;
    ShotOffers(codec, START, 0, key, f, meta, s1);
    ShotOffers(codec, s1, 1, key, g, meta, s2);
    ShotOffers(codec, s2, 0, key, f, meta, s3);
    ShotOffers(codec, s3, 1, key, g, meta, s4);
    hide Shot, Encodes, ClientOf, Cached;
    assert ClientOf(START, 0) == ClientOf(START, 1) == Client(map[], Idle) && Cached(START, key) == None by { AtStart(key); }
    RunsConcat(s2, third, s3, fourth, codec, frames, s4);
    RunsConcat(s1, second, s2, third + fourth, codec, frames, s4);
    RunsConcat(START, first, s1, second + (third + fourth), codec, frames, s4);
    steps, s := first + (second + (third + fourth)), s4;
  }

  /** A screenshot that does not deduplicate offers nothing, gets a full picture or an error, and leaves no trace. */
  lemma WithoutDedup(codec: Codec, s: State, id: nat, key: Key, screen: Screen)
    requires ClientOf(s, id).phase.Idle?
    ensures var s1 := Next(s, Ask(id, key, false), codec);
            var s2 := Next(s1, Serve(id, screen), codec);
            var s3 := Next(s2, Receive(id), codec);
            && s3.cache == s.cache && s3.last == s.last && ClientOf(s3, id).lastShot == ClientOf(s, id).lastShot
            && |s3.log| == |s.log| + 1 && s3.log[|s.log|].offered == None && !s3.log[|s.log|].deduped
  {
  }

  lemma AtStart(key: Key)
    ensures ClientOf(START, 0) == ClientOf(START, 1) == Client(map[], Idle) && Cached(START, key) == None
  {
  }

  /** What a screenshot offered, and what the next one of either session will find. */
  lemma ShotOffers(codec: Codec, s: State, id: nat, key: Key, g: Raw, meta: Meta, s': State)
    requires Shot(codec, s, id, key, g, meta, s')
    ensures |s'.log| == |s.log| + 1 && forall i :: 0 <= i < |s.log| ==> s'.log[i] == s.log[i]
    ensures var d, own := s'.log[|s.log|], ClientOf(s, id).lastShot;
            && d.offered == (if key in own then Some(own[key].hash) else HashOf(Cached(s, key)))
            && (d.deduped <==> d.offered == Some(codec.hash(g)))
            && (!d.deduped ==> HashOf(Cached(s', key)) == Some(codec.hash(g)))
    ensures var c := ClientOf(s', id); c.phase.Idle? && key in c.lastShot && c.lastShot[key].hash == codec.hash(g)
    ensures forall other :: other != id ==> ClientOf(s', other) == ClientOf(s, other)
  {
    hide ClientOf, Cached;
    assert forall i :: 0 <= i < |s.log| ==> s'.log[i] == s'.log[..|s.log|][i];
  }

  /** Frames that hash alike and encode differently: the second screenshot shows `g` but is taken for `f`. */
  lemma Mistaken(codec: Codec, frames: set<Raw>, f: Raw, g: Raw, key: Key) returns (steps: seq<Step>, s: State)
    requires f in frames && g in frames && !Alike(codec, f, g, key)
    ensures Runs(START, steps, codec, frames, s) && !AllFaithful(codec, s.log)
  {
    steps, s := TwoShots(codec, frames, key, f, NO_META, g, NO_META);
    hide Runs;
    assert !Faithful(codec, s.log[1]);
  }

  /** A pointer that is gone: the second screenshot has none, but its result still shows the first one's. */
  lemma StalePointer(codec: Codec, frames: set<Raw>, f: Raw, key: Key) returns (steps: seq<Step>, s: State)
    requires f in frames && codec.encode(f, OptsOf(key).(maxLongEdge := None)).Ok?
    ensures Runs(START, steps, codec, frames, s) && |s.log| == 2 && s.log[1].screen == Pixels(f, NO_META)
    ensures s.log[1].deduped && s.log[1].result.Some? && s.log[1].result.value.meta == Meta(None, Some((3, 4)))
  {
    steps, s := TwoShots(codec, frames, key, f, Meta(None, Some((3, 4))), f, NO_META);
    hide Runs;
  }

  /** The metadata is the plain capture's too, unless the reply lacks a part that the held frame has. */
  lemma MetaIsFreshIff(codec: Codec, p: Phase)
    requires p.Answered? && p.shot == Screenshot(codec, OptsOf(p.key), HashOf(p.candidate), p.screen)
    requires p.shot.NotModified?
    ensures var held := p.candidate.value.frame.meta;
            ResultOf(p.candidate, p.shot).value.meta == p.screen.meta <==>
              && (p.screen.meta.display.None? ==> held.display.None?)
              && (p.screen.meta.pointer.None? ==> held.pointer.None?)
  {
  }
}
