/**
 * The frame-processing loop of IkaLog.py (`core()`): frame acquisition with
 * decimation and retry, in-game tracking, the debounced game-start
 * transition, the gated and stabilised result capture, and the dispatch of
 * every lifecycle hook to the output plugins.
 *
 * The capture device is a finite stream of frames, the wall clock a
 * sequence of readings, the scene matchers total functions of the current
 * frame, and each plugin a set of hooks with a reply per hook and iteration.
 */
module FrameEngine {
  import opened Wrappers
  import opened IkaUtils

  // ---------------------------------------------------------------------
  // Frames and the capture device

  datatype Frame = Frame(image: seq<int>)

  /** The frame the k-th capture.read() returns; past the end of the stream
      the device returns nothing. */
  function FrameAt(source: seq<Option<Frame>>, k: nat): Option<Frame> {
    if k < |source| then source[k] else None
  }

  /** The position of the first frame at or after read k, if there is one. */
  function NextFrame(source: seq<Option<Frame>>, k: nat): (r: Option<nat>)
    ensures r.Some? ==> k <= r.value < |source| && source[r.value].Some?
    ensures r.Some? ==> forall j :: k <= j < r.value ==> FrameAt(source, j).None?
    ensures r.None? ==> forall j :: k <= j ==> FrameAt(source, j).None?
    decreases |source| - k
  {
    if k >= |source| then None
    else if source[k].Some? then Some(k)
    else NextFrame(source, k + 1)
  }

  /** The position of the last frame among reads k..k+n-1, if there is one. */
  function LastFrame(source: seq<Option<Frame>>, k: nat, n: nat): (r: Option<nat>)
    ensures r.Some? ==> k <= r.value < k + n && FrameAt(source, r.value).Some?
    ensures r.Some? ==> forall j :: r.value < j < k + n ==> FrameAt(source, j).None?
    ensures r.None? ==> forall j :: k <= j < k + n ==> FrameAt(source, j).None?
    decreases n
  {
    if n == 0 then None
    else if FrameAt(source, k + n - 1).Some? then Some(k + n - 1)
    else LastFrame(source, k, n - 1)
  }

  /** The frame kept by the stabilising reads k..k+n-1: the last one that
      returned a frame, or `prev` when none did. */
  function Stabilised(source: seq<Option<Frame>>, k: nat, n: nat, prev: Option<Frame>): Option<Frame> {
    match LastFrame(source, k, n)
    case Some(j) => FrameAt(source, j)
    case None => prev
  }

  /** The capture device: a finite stream read one frame at a time. */
  class Capture {
    const source: seq<Option<Frame>>
    var position: nat

    constructor(source: seq<Option<Frame>>)
      ensures this.source == source && position == 0
    {
      this.source := source;
      position := 0;
    }

    method Read() returns (f: Option<Frame>)
      modifies this
      ensures position == old(position) + 1 && f == FrameAt(source, old(position))
    {
      f := FrameAt(source, position);
      position := position + 1;
    }
  }

  /** The wall clock: the k-th call of time.time() returns readings(k). */
  class Clock {
    const readings: nat -> int
    var ticks: nat

    constructor(readings: nat -> int)
      ensures this.readings == readings && ticks == 0
    {
      this.readings := readings;
      ticks := 0;
    }

    method Now() returns (t: int)
      modifies this
      ensures ticks == old(ticks) + 1 && t == readings(old(ticks))
    {
      t := readings(ticks);
      ticks := ticks + 1;
    }
  }

  ghost predicate Monotone(readings: nat -> int) {
    forall a, b :: a <= b ==> readings(a) <= readings(b)
  }

  // ---------------------------------------------------------------------
  // Scene matchers

  /** A matcher call that returns a value or raises. */
  datatype Probe<T> = Returned(value: T) | Raised

  /** A sample of the tower tracker; a falsy sample is None. */
  datatype TowerSample = TowerSample(fields: map<string, int>)

  /** What a positive game-start match recognises and writes into the game. */
  datatype StartInfo = StartInfo(mapId: Option<string>, ruleId: Option<string>)

  /** What the result analysis writes into the game. */
  datatype Analysis = Analysis(won: Option<bool>, players: Option<seq<Entry>>)

  /** The scene matchers, as functions of the current frame. */
  datatype Scenes = Scenes(
    timerIcon: Option<Frame> -> bool,
    lives: Option<Frame> -> Probe<(int, int)>,
    tower: Option<Frame> -> Probe<Option<TowerSample>>,
    gameStart: Option<Frame> -> Option<StartInfo>,
    resultDetail: Option<Frame> -> bool,
    analyze: Option<Frame> -> Analysis)

  /** The `game` namespace of the context. */
  datatype Game = Game(
    mapId: Option<string>,
    ruleId: Option<string>,
    won: Option<bool>,
    players: Option<seq<Entry>>,
    livesTrack: seq<(int, int)>,
    towerTrack: seq<TowerSample>)

  const FreshGame: Game := Game(None, None, None, None, [], [])

  /** The game as the start matcher leaves it after a session reset. */
  function StartedGame(info: StartInfo): Game {
    FreshGame.(mapId := info.mapId, ruleId := info.ruleId)
  }

  /** The game after the tracking of lines 73-85, when the tower tracker
      did not raise: in game, a lives reading is appended, and with it the
      tower sample when that is truthy; a raising lives reader appends
      neither. Nothing but the two tracks changes, each by at most one. */
  function Tracked(sc: Scenes, g: Game, inGame: bool, frame: Option<Frame>): (r: Game)
    ensures r == g.(livesTrack := r.livesTrack, towerTrack := r.towerTrack)
    ensures |g.livesTrack| <= |r.livesTrack| <= |g.livesTrack| + 1 && r.livesTrack[..|g.livesTrack|] == g.livesTrack
    ensures |g.towerTrack| <= |r.towerTrack| <= |g.towerTrack| + 1 && r.towerTrack[..|g.towerTrack|] == g.towerTrack
    ensures |r.towerTrack| > |g.towerTrack| ==> |r.livesTrack| > |g.livesTrack|
    ensures !inGame ==> r == g
  {
    if inGame && sc.tower(frame).Returned? && sc.lives(frame).Returned? then
      var sample := sc.tower(frame).value;
      g.(livesTrack := g.livesTrack + [sc.lives(frame).value],
         towerTrack := g.towerTrack + (if sample.Some? then [sample.value] else []))
    else g
  }

  /** The game once lines 155-158 have cleared the result fields. */
  function Cleared(g: Game): Game {
    g.(mapId := None, ruleId := None, won := None, players := None)
  }

  // ---------------------------------------------------------------------
  // Plugins and hook dispatch

  datatype Hook = OnFrameRead | OnGameStart | OnGameIndividualResultAnalyze
                | OnGameIndividualResult | OnGameReset | OnFrameNext | OnKeyPress

  /** A hook call returns (onFrameNext's value is the key) or raises. */
  datatype Reply = Returns(value: Option<int>) | Raises

  /** An output plugin: the hooks it defines and how each call ends, by
      hook and loop iteration. */
  datatype Plugin = Plugin(hooks: set<Hook>, reply: (Hook, nat) -> Reply)

  /** A hook call: which plugin, which hook, and the key passed to
      onKeyPress (None for the other hooks). */
  datatype Call = Call(plugin: nat, hook: Hook, key: Option<int>)

  /** The calls of one dispatch of `h`: one per plugin that defines it, in
      plugin order (see CallsSpec). */
  function Calls(ps: seq<Plugin>, h: Hook, key: Option<int>): seq<Call>
    decreases |ps|
  {
    if ps == [] then []
    else
      var rest := Calls(ps[..|ps| - 1], h, key);
      if h in ps[|ps| - 1].hooks then rest + [Call(|ps| - 1, h, key)] else rest
  }

  /** A dispatch calls exactly the plugins that define the hook, with the
      hook's key, in strictly increasing plugin order. */
  lemma {:induction false} CallsSpec(ps: seq<Plugin>, h: Hook, key: Option<int>)
    ensures forall c :: c in Calls(ps, h, key) ==>
      c.plugin < |ps| && c.hook == h && c.key == key && h in ps[c.plugin].hooks
    ensures forall i :: 0 <= i < |ps| && h in ps[i].hooks ==> Call(i, h, key) in Calls(ps, h, key)
    ensures forall a, b :: 0 <= a < b < |Calls(ps, h, key)| ==> Calls(ps, h, key)[a].plugin < Calls(ps, h, key)[b].plugin
    decreases |ps|
  {
    if ps != [] {
      var init := ps[..|ps| - 1];
      CallsSpec(init, h, key);
      assert forall i :: 0 <= i < |init| ==> init[i] == ps[i];
    }
  }

  /** Every plugin that defines `h` is called exactly once per dispatch. */
  lemma CalledExactlyOnce(ps: seq<Plugin>, h: Hook, key: Option<int>, i: nat) returns (a: nat)
    requires i < |ps| && h in ps[i].hooks
    ensures a < |Calls(ps, h, key)| && Calls(ps, h, key)[a] == Call(i, h, key)
    ensures forall b :: 0 <= b < |Calls(ps, h, key)| && b != a ==> Calls(ps, h, key)[b].plugin != i
  {
    CallsSpec(ps, h, key);
    var cs := Calls(ps, h, key);
    a :| 0 <= a < |cs| && cs[a] == Call(i, h, key);
    forall b | 0 <= b < |cs| && b != a ensures cs[b].plugin != i {
      if b < a { assert cs[b].plugin < cs[a].plugin; } else { assert cs[a].plugin < cs[b].plugin; }
    }
  }

  predicate ReturnsKey(p: Plugin, iteration: nat) {
    OnFrameNext in p.hooks && p.reply(OnFrameNext, iteration).Returns?
  }

  /** The key handed to onKeyPress: the value of the last onFrameNext call
      that returned, None when none did (see LastKeySpec). */
  function LastKey(ps: seq<Plugin>, iteration: nat): Option<int>
    decreases |ps|
  {
    if ps == [] then None
    else
      var last := ps[|ps| - 1];
      if ReturnsKey(last, iteration) then last.reply(OnFrameNext, iteration).value
      else LastKey(ps[..|ps| - 1], iteration)
  }

  /** Some plugin after the i-th returns from onFrameNext. */
  predicate ReturnsAfter(ps: seq<Plugin>, i: int, iteration: nat) {
    exists j :: 0 <= j && i < j < |ps| && ReturnsKey(ps[j], iteration)
  }

  /** The last plugin whose onFrameNext returns decides the key; when none
      returns, the key is None. */
  lemma {:induction false} LastKeySpec(ps: seq<Plugin>, iteration: nat)
    ensures !ReturnsAfter(ps, -1, iteration) ==> LastKey(ps, iteration) == None
    ensures forall i :: 0 <= i < |ps| && ReturnsKey(ps[i], iteration) && !ReturnsAfter(ps, i, iteration) ==>
      LastKey(ps, iteration) == ps[i].reply(OnFrameNext, iteration).value
    decreases |ps|
  {
    if ps != [] {
      var init := ps[..|ps| - 1];
      LastKeySpec(init, iteration);
      assert forall i :: 0 <= i < |init| ==> init[i] == ps[i];
      forall i | -1 <= i < |init| && !ReturnsAfter(ps, i, iteration)
        ensures !ReturnsAfter(init, i, iteration) && !ReturnsKey(ps[|ps| - 1], iteration)
      {
        if i < |ps| - 1 {
          assert !ReturnsKey(ps[|ps| - 1], iteration);
        }
      }
    }
  }

  predicate RaisesOn(p: Plugin, h: Hook, iteration: nat) {
    h in p.hooks && p.reply(h, iteration).Raises?
  }

  /** The first plugin whose `h` call raises, if any (see FirstRaiserSpec). */
  function FirstRaiser(ps: seq<Plugin>, h: Hook, iteration: nat): (r: Option<nat>)
    ensures r.Some? ==> r.value < |ps|
    decreases |ps|
  {
    if ps == [] then None
    else
      match FirstRaiser(ps[..|ps| - 1], h, iteration)
      case Some(j) => Some(j)
      case None => if RaisesOn(ps[|ps| - 1], h, iteration) then Some(|ps| - 1) else None
  }

  /** FirstRaiser finds a plugin that raises, and none before it raises;
      when it finds none, no plugin raises. */
  lemma {:induction false} FirstRaiserSpec(ps: seq<Plugin>, h: Hook, iteration: nat)
    ensures var r := FirstRaiser(ps, h, iteration);
      r.Some? ==> RaisesOn(ps[r.value], h, iteration) && forall j :: 0 <= j < r.value ==> !RaisesOn(ps[j], h, iteration)
    ensures FirstRaiser(ps, h, iteration).None? ==> forall j :: 0 <= j < |ps| ==> !RaisesOn(ps[j], h, iteration)
    decreases |ps|
  {
    if ps != [] {
      var init := ps[..|ps| - 1];
      FirstRaiserSpec(init, h, iteration);
      assert forall i :: 0 <= i < |init| ==> init[i] == ps[i];
    }
  }

  /** How many plugins the onGameStart dispatch reaches: all of them, or up
      to and including the first one that raises. */
  function StartReach(ps: seq<Plugin>, iteration: nat): (n: nat)
    ensures n <= |ps|
  {
    match FirstRaiser(ps, OnGameStart, iteration)
    case Some(j) => j + 1
    case None => |ps|
  }

  lemma AppendThree<T>(t: seq<T>, a: seq<T>, b: seq<T>, c: seq<T>)
    ensures t + a + b + c == t + (a + b + c)
  {
  }

  /** The calls of the three result hooks, in their fixed order. */
  function ResultCalls(ps: seq<Plugin>): seq<Call> {
    Calls(ps, OnGameIndividualResultAnalyze, None) + Calls(ps, OnGameIndividualResult, None) + Calls(ps, OnGameReset, None)
  }

  // ---------------------------------------------------------------------
  // Time gates

  /** One passage of a time gate: the clock reading that was compared with
      the previous stamp, and the reading stored as the new stamp. */
  datatype Gate = Gate(checkedAt: nat, stampedAt: nat)

  /** The stamp in force before gate i: the reading of gate i-1, or the
      initial value. */
  function PrevStamp(gs: seq<Gate>, readings: nat -> int, initial: int, i: nat): int
    requires i <= |gs|
  {
    if i == 0 then initial else readings(gs[i - 1].stampedAt)
  }

  /** The current stamp: the last gate's reading, or the initial value. */
  function LastStamp(gs: seq<Gate>, readings: nat -> int, initial: int): int {
    PrevStamp(gs, readings, initial, |gs|)
  }

  /** Gate i was stamped after it was checked, checked after the stamp
      before it, and more than `gap` after that stamp. */
  ghost predicate GatePassed(gs: seq<Gate>, readings: nat -> int, initial: int, gap: int, i: nat)
    requires i < |gs|
  {
    && gs[i].checkedAt < gs[i].stampedAt
    && (i > 0 ==> gs[i - 1].stampedAt < gs[i].checkedAt)
    && readings(gs[i].checkedAt) - PrevStamp(gs, readings, initial, i) > gap
  }

  /** Gates passed in clock order, each more than `gap` after the stamp
      before it. */
  ghost predicate GatesValid(gs: seq<Gate>, readings: nat -> int, initial: int, gap: int) {
    forall i :: 0 <= i < |gs| ==> GatePassed(gs, readings, initial, gap, i)
  }

  /** Every gate was stamped before clock reading `ticks`. */
  predicate StampedBefore(gs: seq<Gate>, ticks: nat) {
    gs == [] || gs[|gs| - 1].stampedAt < ticks
  }

  /** The state of one time gate: its passages are valid, all before
      clock reading `ticks`, and `stamp` is the last one's reading. */
  ghost predicate GateState(gs: seq<Gate>, stamp: int, readings: nat -> int, initial: int, gap: int, ticks: nat) {
    && GatesValid(gs, readings, initial, gap)
    && StampedBefore(gs, ticks)
    && stamp == LastStamp(gs, readings, initial)
  }

  lemma GateStateLater(gs: seq<Gate>, stamp: int, readings: nat -> int, initial: int, gap: int, ticks: nat, ticks': nat)
    requires GateState(gs, stamp, readings, initial, gap, ticks) && ticks <= ticks'
    ensures GateState(gs, stamp, readings, initial, gap, ticks')
  {
  }

  /** Passing the gate at `checkedAt` with a reading more than `gap` after
      the stamp, and stamping at `stampedAt`, keeps the gate's state. */
  lemma GatesAppend(gs: seq<Gate>, stamp: int, readings: nat -> int, initial: int, gap: int, ticks: nat, g: Gate)
    requires GateState(gs, stamp, readings, initial, gap, ticks)
    requires ticks <= g.checkedAt < g.stampedAt
    requires readings(g.checkedAt) - stamp > gap
    ensures GateState(gs + [g], readings(g.stampedAt), readings, initial, gap, g.stampedAt + 1)
  {
    var gs' := gs + [g];
    forall i | 0 <= i <= |gs| ensures GatePassed(gs', readings, initial, gap, i) {
      assert PrevStamp(gs', readings, initial, i) == PrevStamp(gs, readings, initial, i);
      if i < |gs| {
        assert GatePassed(gs, readings, initial, gap, i);
      }
    }
  }

  /** With a clock that never runs backwards, the stamps of the gates
      are more than `gap` apart per gate between them. */
  lemma {:induction false} GatesSpaced(gs: seq<Gate>, readings: nat -> int, initial: int, gap: int, i: nat, j: nat)
    requires GatesValid(gs, readings, initial, gap) && Monotone(readings)
    requires i < j < |gs|
    ensures readings(gs[j].stampedAt) - readings(gs[i].stampedAt) > gap * (j - i)
    decreases j - i
  {
    assert GatePassed(gs, readings, initial, gap, j);
    assert readings(gs[j].checkedAt) <= readings(gs[j].stampedAt);
    if i < j - 1 {
      GatesSpaced(gs, readings, initial, gap, i, j - 1);
      assert gap * (j - i) == gap * (j - 1 - i) + gap;
    }
  }

  // ---------------------------------------------------------------------
  // One pass of the loop

  /** The fields of the engine that the start and result phases change. */
  datatype Phase = Phase(
    frame: Option<Frame>,
    game: Game,
    lastGamestart: int,
    starts: seq<Gate>,
    lastCapture: int,
    captures: seq<Gate>)

  /** Lines 89-113, from `before` to `after`, with the clock at reading t0:
      a start happens exactly when, out of game, the clock is more than
      10 s past the last start and the start matcher matches the frame; it
      stamps the next reading, drains to a frame the matcher rejects and
      leaves a fresh game but for its map and rule. Without a start
      nothing changes. */
  ghost predicate StartDecided(sc: Scenes, readings: nat -> int, t0: nat, inGame: bool,
                               before: Phase, after: Phase, started: bool)
  {
    && (started <==> (!inGame && readings(t0) - before.lastGamestart > StartGap && sc.gameStart(before.frame).Some?))
    && (started ==>
          && after.lastGamestart == readings(t0 + 1) && after.starts == before.starts + [Gate(t0, t0 + 1)]
          && sc.gameStart(after.frame).None?
          && after.game == StartedGame(StartInfo(after.game.mapId, after.game.ruleId))
          && after.lastCapture == before.lastCapture && after.captures == before.captures)
    && (!started ==> after == before)
  }

  /** Lines 116-158, from `before` to `after`, with the clock at reading t
      and the capture device at `position` afterwards: a result is captured
      exactly when, out of game, both readings t and t+1 are more than 60 s
      past the last capture and the result matcher accepts the frame; it
      stamps reading t+2, stabilises the frame over ten reads and clears
      the result fields of the game. Without a capture nothing changes. */
  ghost predicate ResultDecided(sc: Scenes, readings: nat -> int, t: nat, inGame: bool,
                                before: Phase, after: Phase, source: seq<Option<Frame>>, position: nat, captured: bool)
  {
    && (captured <==> (!inGame && readings(t) - before.lastCapture > ResultGap
                       && sc.resultDetail(before.frame) && readings(t + 1) - before.lastCapture > ResultGap))
    && (captured ==>
          && after.lastCapture == readings(t + 2) && after.captures == before.captures + [Gate(t + 1, t + 2)]
          && position >= 10 && after.frame == Stabilised(source, position - 10, 10, before.frame)
          && after.game == Cleared(before.game)
          && after.lastGamestart == before.lastGamestart && after.starts == before.starts)
    && (!captured ==> after == before)
  }

  // ---------------------------------------------------------------------
  // The engine

  datatype Outcome = Continue | Stalled | Crashed

  const StartGap: int := 10
  const ResultGap: int := 60
  const Decimation: nat := 12

  /** The state of `core()`: the context's engine and game namespaces, the
      two time stamps, and (ghost) what the plugins were shown. Each phase
      of the loop names the fields it may change. */
  class Engine {
    const scenes: Scenes
    const plugins: seq<Plugin>
    const capture: Capture
    const timer: Clock
    const initialCapture: int
    const initialGamestart: int

    var frame: Option<Frame>
    var inGame: bool
    var game: Game
    var lastCapture: int
    var lastGamestart: int
    var iteration: nat
    /** Every hook call so far. */
    ghost var trace: seq<Call>
    /** How often the tower tracker was reset. */
    ghost var towerResets: nat
    /** The passages of the 10-second start gate and the 60-second result gate. */
    ghost var starts: seq<Gate>
    ghost var captures: seq<Gate>
    /** The game record each result dispatch showed the plugins. */
    ghost var reported: seq<Game>

    /** The stamps are the last gate passages, and each passage came more
        than the gap after the one before. */
    ghost predicate Valid()
      reads this`starts, this`lastGamestart, this`captures, this`lastCapture, this`reported, timer`ticks
    {
      && GateState(starts, lastGamestart, timer.readings, initialGamestart, StartGap, timer.ticks)
      && GateState(captures, lastCapture, timer.readings, initialCapture, ResultGap, timer.ticks)
      && |captures| == |reported|
    }

    /** The context of core() before the loop: an empty game, no frame, and
        both stamps 100 s in the past. */
    constructor(scenes: Scenes, plugins: seq<Plugin>, capture: Capture, timer: Clock)
      modifies timer
      ensures Valid()
      ensures this.scenes == scenes && this.plugins == plugins && this.capture == capture && this.timer == timer
      ensures timer.ticks == old(timer.ticks) + 2
      ensures lastCapture == timer.readings(old(timer.ticks)) - 100
      ensures lastGamestart == timer.readings(old(timer.ticks) + 1) - 100
      ensures frame.None? && !inGame && game == FreshGame && iteration == 0
      ensures trace == [] && towerResets == 0 && starts == [] && captures == [] && reported == []
    {
      this.scenes := scenes;
      this.plugins := plugins;
      this.capture := capture;
      this.timer := timer;
      var t0 := timer.Now();
      var t1 := timer.Now();
      initialCapture := t0 - 100;
      initialGamestart := t1 - 100;
      lastCapture := t0 - 100;
      lastGamestart := t1 - 100;
      frame := None;
      inGame := false;
      game := FreshGame;
      iteration := 0;
      trace := [];
      towerResets := 0;
      starts := [];
      captures := [];
      reported := [];
    }

    /** Lines 56-64: twelve reads, then more until one returns a frame; the
        frame becomes engine.frame and the timer icon decides inGame. When
        the stream has no frame left the retry would wait forever, which
        is reported as Stalled. */
    method Acquire() returns (outcome: Outcome)
      modifies this`frame, this`inGame, capture
      ensures var k := NextFrame(capture.source, old(capture.position) + Decimation - 1);
        outcome == Continue <==> k.Some?
      ensures outcome != Crashed
      ensures capture.position >= old(capture.position) + Decimation
      ensures outcome == Continue ==>
        && capture.position == NextFrame(capture.source, old(capture.position) + Decimation - 1).value + 1
        && frame == FrameAt(capture.source, capture.position - 1) && frame.Some?
        && inGame == scenes.timerIcon(frame)
      ensures outcome == Stalled ==> frame == old(frame) && inGame == old(inGame)
    {
      var f: Option<Frame> := None;
      for i := 0 to Decimation
        invariant capture.position == old(capture.position) + i
        invariant i > 0 ==> f == FrameAt(capture.source, capture.position - 1)
        modifies capture
      {
        f := capture.Read();
      }
      ghost var start := old(capture.position) + Decimation - 1;
      while f.None?
        invariant capture.position >= old(capture.position) + Decimation
        invariant f == FrameAt(capture.source, capture.position - 1)
        invariant f.None? ==> NextFrame(capture.source, start) == NextFrame(capture.source, capture.position)
        invariant f.Some? ==> NextFrame(capture.source, start) == Some(capture.position - 1)
        modifies capture
        decreases |capture.source| - capture.position
      {
        if capture.position >= |capture.source| {
          return Stalled;
        }
        f := capture.Read();
      }
      frame := f;
      inGame := scenes.timerIcon(frame);
      outcome := Continue;
    }

    /** Lines 73-85: in game, the tower tracker is consulted (a raise there
        is not caught), then the lives; when the lives are read they are
        appended, and the tower sample too if it is truthy; when the lives
        raise, neither is appended. */
    method Track() returns (outcome: Outcome)
      modifies this`game
      ensures outcome != Stalled
      ensures outcome == Crashed <==> inGame && scenes.tower(frame).Raised?
      ensures outcome == Crashed ==> game == old(game)
      ensures outcome == Continue ==> game == Tracked(scenes, old(game), inGame, frame)
    {
      outcome := Continue;
      if inGame {
        var towerData := scenes.tower(frame);
        if towerData.Raised? {
          return Crashed;
        }
        var lives := scenes.lives(frame);
        if lives.Returned? {
          game := game.(livesTrack := game.livesTrack + [lives.value]);
          if towerData.value.Some? {
            game := game.(towerTrack := game.towerTrack + [towerData.value.value]);
          }
        }
      }
    }

    /** A fault-isolated dispatch: every plugin that defines `h` is called
        once, in order; whatever the calls raise is discarded. */
    method Broadcast(h: Hook, key: Option<int>)
      modifies this`trace
      ensures trace == old(trace) + Calls(plugins, h, key)
    {
      ghost var sent: seq<Call> := [];
      for i := 0 to |plugins|
        invariant sent == Calls(plugins[..i], h, key)
      {
        assert plugins[..i + 1][..i] == plugins[..i];
        if h in plugins[i].hooks {
          sent := sent + [Call(i, h, key)];
        }
      }
      assert plugins[..|plugins|] == plugins;
      trace := trace + sent;
    }

    /** Lines 111-113: onGameStart is not fault-isolated; the first raise
        ends the dispatch and the loop. */
    method BroadcastStart() returns (outcome: Outcome)
      modifies this`trace
      ensures outcome == Continue <==> FirstRaiser(plugins, OnGameStart, iteration).None?
      ensures outcome != Stalled
      ensures trace == old(trace) + Calls(plugins[..StartReach(plugins, iteration)], OnGameStart, None)
    {
      ghost var sent: seq<Call> := [];
      var i := 0;
      while i < |plugins|
        invariant 0 <= i <= |plugins|
        invariant sent == Calls(plugins[..i], OnGameStart, None)
        invariant forall j :: 0 <= j < i ==> !RaisesOn(plugins[j], OnGameStart, iteration)
      {
        assert plugins[..i + 1][..i] == plugins[..i];
        if OnGameStart in plugins[i].hooks {
          sent := sent + [Call(i, OnGameStart, None)];
          if plugins[i].reply(OnGameStart, iteration).Raises? {
            assert RaisesOn(plugins[i], OnGameStart, iteration);
            FirstRaiserSpec(plugins, OnGameStart, iteration);
            trace := trace + sent;
            return Crashed;
          }
        }
        i := i + 1;
      }
      assert plugins[..i] == plugins;
      FirstRaiserSpec(plugins, OnGameStart, iteration);
      trace := trace + sent;
      outcome := Continue;
    }

    /** The frame the drain of a game start holds after `round` rounds of
        three reads from read k. */
    ghost function DrainFrame(k: nat, round: nat): Option<Frame>
      requires round >= 1
    {
      FrameAt(capture.source, k + 3 * round - 1)
    }

    /** What the game holds after a drain of `rounds` rounds from read k:
        the map and rule of the last positive match, none when only the
        first round was read. */
    ghost function DrainedInfo(k: nat, rounds: nat): StartInfo {
      if rounds >= 2 then scenes.gameStart(DrainFrame(k, rounds - 1)).GetOr(StartInfo(None, None))
      else StartInfo(None, None)
    }

    /** Lines 96-107: while the start matcher still matches, three more
        frames are read and the last one is matched again; every positive
        match writes its map and rule into the game. When the stream has
        run out and the matcher still matches a missing frame, the drain
        would never end, which is reported as Stalled. */
    method DrainStart() returns (outcome: Outcome, ghost rounds: nat)
      requires game == FreshGame
      modifies this`frame, this`game, capture
      ensures outcome != Crashed
      ensures outcome == Continue ==> rounds >= 1
      ensures capture.position == old(capture.position) + 3 * rounds
      ensures forall q :: 1 <= q < rounds ==> scenes.gameStart(DrainFrame(old(capture.position), q)).Some?
      ensures outcome == Stalled ==> capture.position >= |capture.source|
      ensures outcome == Continue ==>
        && frame == DrainFrame(old(capture.position), rounds)
        && scenes.gameStart(frame).None?
        && game == StartedGame(DrainedInfo(old(capture.position), rounds))
    {
      ghost var k := capture.position;
      var r: Option<StartInfo> := Some(StartInfo(None, None));
      outcome, rounds := Continue, 0;
      while r.Some?
        invariant capture.position == k + 3 * rounds
        invariant rounds > 0 ==> frame == DrainFrame(k, rounds) && r == scenes.gameStart(frame)
        invariant forall q :: 1 <= q < rounds ==> scenes.gameStart(DrainFrame(k, q)).Some?
        invariant game == StartedGame(if r.Some? then r.value else DrainedInfo(k, rounds))
        invariant rounds == 0 ==> r == Some(StartInfo(None, None))
        modifies this`frame, this`game, capture
        decreases (if capture.position <= |capture.source| then |capture.source| - capture.position else 0) + (if r.Some? then 1 else 0)
      {
        if capture.position >= |capture.source| && scenes.gameStart(None).Some? {
          return Stalled, rounds;
        }
        ghost var previous := r;
        var f := capture.Read();
        f := capture.Read();
        f := capture.Read();
        frame := f;
        r := scenes.gameStart(frame);
        if r.Some? {
          game := StartedGame(r.value);
        }
        rounds := rounds + 1;
        assert frame == DrainFrame(k, rounds);
        assert rounds >= 2 ==> previous == scenes.gameStart(DrainFrame(k, rounds - 1));
      }
    }

    /** Line 109: the start is stamped with a fresh clock reading; the gate
        was passed at reading `checkedAt`. */
    method StampStart(ghost checkedAt: nat)
      requires GateState(starts, lastGamestart, timer.readings, initialGamestart, StartGap, checkedAt)
      requires GateState(captures, lastCapture, timer.readings, initialCapture, ResultGap, checkedAt)
      requires timer.ticks == checkedAt + 1 && timer.readings(checkedAt) - lastGamestart > StartGap
      modifies this`lastGamestart, this`starts, timer
      ensures timer.ticks == old(timer.ticks) + 1
      ensures lastGamestart == timer.readings(old(timer.ticks))
      ensures starts == old(starts) + [Gate(checkedAt, checkedAt + 1)]
      ensures GateState(starts, lastGamestart, timer.readings, initialGamestart, StartGap, timer.ticks)
      ensures GateState(captures, lastCapture, timer.readings, initialCapture, ResultGap, timer.ticks)
    {
      GatesAppend(starts, lastGamestart, timer.readings, initialGamestart, StartGap, checkedAt, Gate(checkedAt, checkedAt + 1));
      GateStateLater(captures, lastCapture, timer.readings, initialCapture, ResultGap, checkedAt, checkedAt + 2);
      var now := timer.Now();
      lastGamestart := now;
      starts := starts + [Gate(checkedAt, checkedAt + 1)];
    }

    /** Lines 89-91: the start matcher is consulted only out of game and
        more than 10 s after the last start; the clock is read only out of
        game. */
    method StartDue() returns (r: Option<StartInfo>)
      requires Valid()
      modifies timer
      ensures Valid()
      ensures r.Some? <==> (!inGame && timer.readings(old(timer.ticks)) - lastGamestart > StartGap
        && scenes.gameStart(frame).Some?)
      ensures r.Some? ==> r == scenes.gameStart(frame)
      ensures timer.ticks == old(timer.ticks) + (if inGame then 0 else 1)
    {
      r := None;
      if !inGame {
        var now := timer.Now();
        GateStateLater(starts, lastGamestart, timer.readings, initialGamestart, StartGap, old(timer.ticks), timer.ticks);
        GateStateLater(captures, lastCapture, timer.readings, initialCapture, ResultGap, old(timer.ticks), timer.ticks);
        if now - lastGamestart > StartGap {
          r := scenes.gameStart(frame);
        }
      }
    }

    /** Lines 93-113: the game is reset, the tower tracker reset and the
        start frames drained; then the start is stamped and onGameStart
        dispatched. The gate was passed at clock reading `checkedAt`. */
    method BeginGame(ghost checkedAt: nat) returns (outcome: Outcome, ghost rounds: nat)
      requires GateState(starts, lastGamestart, timer.readings, initialGamestart, StartGap, checkedAt)
      requires GateState(captures, lastCapture, timer.readings, initialCapture, ResultGap, checkedAt)
      requires |captures| == |reported|
      requires timer.ticks == checkedAt + 1 && timer.readings(checkedAt) - lastGamestart > StartGap
      modifies this`frame, this`game, this`lastGamestart, this`towerResets, this`starts, this`trace, capture, timer
      ensures Valid()
      ensures towerResets == old(towerResets) + 1
      ensures capture.position == old(capture.position) + 3 * rounds
      ensures outcome == Stalled ==> lastGamestart == old(lastGamestart) && starts == old(starts) && trace == old(trace)
      ensures outcome != Stalled ==>
        && rounds >= 1
        && frame == DrainFrame(old(capture.position), rounds)
        && scenes.gameStart(frame).None?
        && game == StartedGame(DrainedInfo(old(capture.position), rounds))
      ensures outcome != Stalled ==>
        && timer.ticks == old(timer.ticks) + 1
        && lastGamestart == timer.readings(old(timer.ticks))
        && starts == old(starts) + [Gate(checkedAt, checkedAt + 1)]
      ensures outcome != Stalled ==>
        && (outcome == Continue <==> FirstRaiser(plugins, OnGameStart, iteration).None?)
        && trace == old(trace) + Calls(plugins[..StartReach(plugins, iteration)], OnGameStart, None)
    {
      game := FreshGame;
      towerResets := towerResets + 1;
      outcome, rounds := DrainStart();
      if outcome == Stalled {
        GateStateLater(starts, lastGamestart, timer.readings, initialGamestart, StartGap, checkedAt, timer.ticks);
        GateStateLater(captures, lastCapture, timer.readings, initialCapture, ResultGap, checkedAt, timer.ticks);
        return;
      }
      StampStart(checkedAt);
      outcome := BroadcastStart();
    }

    /** Lines 89-113 as one phase of the loop: a start is detected, and the
        dispatch that follows it either reaches every plugin or ends the
        loop at the first that raises. */
    method StartPhase() returns (outcome: Outcome, ghost started: bool, ghost rounds: nat)
      requires Valid()
      modifies this`frame, this`game, this`lastGamestart, this`towerResets, this`starts, this`trace, capture, timer
      ensures Valid()
      ensures !started ==>
        outcome == Continue && capture.position == old(capture.position) && timer.ticks == old(timer.ticks) + (if inGame then 0 else 1)
      ensures started && outcome != Stalled ==>
        && rounds >= 1 && capture.position == old(capture.position) + 3 * rounds && timer.ticks == old(timer.ticks) + 2
        && frame == DrainFrame(old(capture.position), rounds)
        && game == StartedGame(DrainedInfo(old(capture.position), rounds))
      ensures outcome == Continue ==> StartDecided(scenes, timer.readings, old(timer.ticks), inGame, old(Snap()), Snap(), started)
      ensures outcome == Continue ==> trace == old(trace) + (if started then Calls(plugins, OnGameStart, None) else [])
    {
      ghost var checkedAt := timer.ticks;
      var r := StartDue();
      started, rounds := r.Some?, 0;
      if r.None? {
        return Continue, started, rounds;
      }
      outcome, rounds := BeginGame(checkedAt);
      if outcome == Continue {
        assert plugins[..StartReach(plugins, iteration)] == plugins;
      }
    }

    /** The stabilising reads of lines 125-128. */
    method Stabilise(n: nat)
      modifies this`frame, capture
      ensures capture.position == old(capture.position) + n
      ensures frame == Stabilised(capture.source, old(capture.position), n, old(frame))
    {
      for x := 0 to n
        invariant capture.position == old(capture.position) + x
        invariant frame == Stabilised(capture.source, old(capture.position), x, old(frame))
      {
        var newFrame := capture.Read();
        if newFrame.Some? {
          frame := newFrame;
        }
      }
    }

    /** Lines 125-158: the frame is stabilised over 10 reads and analysed,
        the three result hooks are dispatched in order on the analysed game,
        and the result fields of the game are cleared; the tracks are kept. */
    method Report()
      modifies this`frame, this`game, this`reported, this`trace, capture
      ensures capture.position == old(capture.position) + 10
      ensures frame == Stabilised(capture.source, old(capture.position), 10, old(frame))
      ensures reported == old(reported) + [old(game).(won := scenes.analyze(frame).won, players := scenes.analyze(frame).players)]
      ensures trace == old(trace) + ResultCalls(plugins)
      ensures game == Cleared(old(game))
    {
      Stabilise(10);
      var analysis := scenes.analyze(frame);
      game := game.(won := analysis.won, players := analysis.players);
      reported := reported + [game];
      Broadcast(OnGameIndividualResultAnalyze, None);
      Broadcast(OnGameIndividualResult, None);
      Broadcast(OnGameReset, None);
      AppendThree(old(trace), Calls(plugins, OnGameIndividualResultAnalyze, None),
        Calls(plugins, OnGameIndividualResult, None), Calls(plugins, OnGameReset, None));
      game := Cleared(game);
    }

    /** Lines 116-118: the result matcher is consulted only out of game
        and more than 60 s after the last result; the clock is read only
        out of game. */
    method ResultDue() returns (due: bool)
      requires Valid()
      modifies timer
      ensures Valid()
      ensures due <==> (!inGame && timer.readings(old(timer.ticks)) - lastCapture > ResultGap && scenes.resultDetail(frame))
      ensures timer.ticks == old(timer.ticks) + (if inGame then 0 else 1)
    {
      due := false;
      if !inGame {
        var now := timer.Now();
        GateStateLater(starts, lastGamestart, timer.readings, initialGamestart, StartGap, old(timer.ticks), timer.ticks);
        GateStateLater(captures, lastCapture, timer.readings, initialCapture, ResultGap, old(timer.ticks), timer.ticks);
        due := now - lastCapture > ResultGap;
      }
      if due {
        due := scenes.resultDetail(frame);
      }
    }

    /** Line 122: the result is stamped with a fresh clock reading; the gate
        was passed at reading `checkedAt`. */
    method StampResult(ghost checkedAt: nat)
      requires GateState(starts, lastGamestart, timer.readings, initialGamestart, StartGap, checkedAt)
      requires GateState(captures, lastCapture, timer.readings, initialCapture, ResultGap, checkedAt)
      requires timer.ticks == checkedAt + 1 && timer.readings(checkedAt) - lastCapture > ResultGap
      modifies this`lastCapture, this`captures, timer
      ensures timer.ticks == old(timer.ticks) + 1
      ensures lastCapture == timer.readings(old(timer.ticks))
      ensures captures == old(captures) + [Gate(checkedAt, checkedAt + 1)]
      ensures GateState(starts, lastGamestart, timer.readings, initialGamestart, StartGap, timer.ticks)
      ensures GateState(captures, lastCapture, timer.readings, initialCapture, ResultGap, timer.ticks)
    {
      GatesAppend(captures, lastCapture, timer.readings, initialCapture, ResultGap, checkedAt, Gate(checkedAt, checkedAt + 1));
      GateStateLater(starts, lastGamestart, timer.readings, initialGamestart, StartGap, checkedAt, checkedAt + 2);
      var now := timer.Now();
      lastCapture := now;
      captures := captures + [Gate(checkedAt, checkedAt + 1)];
    }

    /** Lines 120-158: the gate is checked again on a fresh reading; when it
        still holds, the result is stamped and reported. */
    method RecordResult() returns (ghost captured: bool)
      requires Valid()
      modifies this`frame, this`game, this`reported, this`trace, this`lastCapture, this`captures, capture, timer
      ensures Valid()
      ensures captured <==> timer.readings(old(timer.ticks)) - old(lastCapture) > ResultGap
      ensures !captured ==>
        && timer.ticks == old(timer.ticks) + 1 && capture.position == old(capture.position)
        && frame == old(frame) && game == old(game) && reported == old(reported) && trace == old(trace)
        && lastCapture == old(lastCapture) && captures == old(captures)
      ensures captured ==>
        && timer.ticks == old(timer.ticks) + 2
        && lastCapture == timer.readings(old(timer.ticks) + 1)
        && captures == old(captures) + [Gate(old(timer.ticks), old(timer.ticks) + 1)]
      ensures captured ==>
        && capture.position == old(capture.position) + 10
        && frame == Stabilised(capture.source, old(capture.position), 10, old(frame))
        && reported == old(reported) + [old(game).(won := scenes.analyze(frame).won, players := scenes.analyze(frame).players)]
        && trace == old(trace) + ResultCalls(plugins)
        && game == Cleared(old(game))
    {
      ghost var checkedAt := timer.ticks;
      var now := timer.Now();
      var passed := now - lastCapture > ResultGap;
      captured := passed;
      if !passed {
        GateStateLater(starts, lastGamestart, timer.readings, initialGamestart, StartGap, checkedAt, timer.ticks);
        GateStateLater(captures, lastCapture, timer.readings, initialCapture, ResultGap, checkedAt, timer.ticks);
        return;
      }
      StampResult(checkedAt);
      Report();
    }

    /** Lines 116-158 as one phase of the loop: a result is captured when
        both readings of the 60-second gate pass and the matcher matches. */
    method CaptureResult() returns (ghost captured: bool)
      requires Valid()
      modifies this`frame, this`game, this`reported, this`trace, this`lastCapture, this`captures, capture, timer
      ensures Valid()
      ensures ResultDecided(scenes, timer.readings, old(timer.ticks), inGame, old(Snap()), Snap(),
                            capture.source, capture.position, captured)
      ensures !captured ==> capture.position == old(capture.position) && reported == old(reported)
      ensures captured ==>
        && timer.ticks == old(timer.ticks) + 3 && capture.position == old(capture.position) + 10
        && reported == old(reported) + [old(game).(won := scenes.analyze(frame).won, players := scenes.analyze(frame).players)]
      ensures trace == old(trace) + (if captured then ResultCalls(plugins) else [])
    {
      ghost var before := Snap();
      var due := ResultDue();
      captured := false;
      if due {
        captured := RecordResult();
      }
      if captured {
        assert capture.position - 10 == old(capture.position);
      } else {
        assert Snap() == before;
        assert trace == old(trace) + [];
      }
    }

    /** Lines 160-174: onFrameNext is called on every plugin that has it;
        the key is the value of the last call that returned; then every
        onKeyPress gets that key. */
    method DispatchKeys() returns (key: Option<int>)
      modifies this`trace
      ensures key == LastKey(plugins, iteration)
      ensures trace == old(trace) + Calls(plugins, OnFrameNext, None) + Calls(plugins, OnKeyPress, key)
    {
      key := None;
      ghost var sent: seq<Call> := [];
      for i := 0 to |plugins|
        invariant sent == Calls(plugins[..i], OnFrameNext, None)
        invariant key == LastKey(plugins[..i], iteration)
      {
        assert plugins[..i + 1][..i] == plugins[..i];
        if OnFrameNext in plugins[i].hooks {
          sent := sent + [Call(i, OnFrameNext, None)];
          match plugins[i].reply(OnFrameNext, iteration)
          case Returns(k) => key := k;
          case Raises =>
        }
      }
      assert plugins[..|plugins|] == plugins;
      trace := trace + sent;
      Broadcast(OnKeyPress, key);
    }

    /** Lines 56-85: a frame is acquired, onFrameRead dispatched and, in
        game, the tracks extended. */
    method Observe() returns (outcome: Outcome)
      modifies this`frame, this`inGame, this`game, this`trace, capture
      ensures capture.position >= old(capture.position) + Decimation
      ensures outcome == Stalled ==>
        frame == old(frame) && inGame == old(inGame) && game == old(game) && trace == old(trace)
      ensures outcome != Stalled ==>
        && NextFrame(capture.source, old(capture.position) + Decimation - 1).Some?
        && capture.position == NextFrame(capture.source, old(capture.position) + Decimation - 1).value + 1
        && frame == FrameAt(capture.source, capture.position - 1) && frame.Some?
        && inGame == scenes.timerIcon(frame)
        && trace == old(trace) + Calls(plugins, OnFrameRead, None)
      ensures outcome == Crashed <==> outcome != Stalled && inGame && scenes.tower(frame).Raised?
      ensures outcome == Crashed ==> game == old(game)
      ensures outcome == Continue ==> game == Tracked(scenes, old(game), inGame, frame)
    {
      outcome := Acquire();
      if outcome != Continue {
        return;
      }
      Broadcast(OnFrameRead, None);
      outcome := Track();
    }

    /** The part of the state lines 89-158 change. */
    ghost function Snap(): Phase
      reads this`frame, this`game, this`lastGamestart, this`starts, this`lastCapture, this`captures
    {
      Phase(frame, game, lastGamestart, starts, lastCapture, captures)
    }

    /** Lines 115-174: the result phase, then the key dispatch; the pass
        is counted. */
    method Finish() returns (ghost captured: bool)
      requires Valid()
      modifies this`frame, this`game, this`reported, this`trace, this`lastCapture, this`captures, this`iteration
      modifies capture, timer
      ensures Valid()
      ensures iteration == old(iteration) + 1
      ensures ResultDecided(scenes, timer.readings, old(timer.ticks), inGame, old(Snap()), Snap(),
                            capture.source, capture.position, captured)
      ensures trace == old(trace) + (if captured then ResultCalls(plugins) else [])
        + Calls(plugins, OnFrameNext, None) + Calls(plugins, OnKeyPress, LastKey(plugins, old(iteration)))
    {
      captured := CaptureResult();
      var key := DispatchKeys();
      iteration := iteration + 1;
    }

    /** Lines 89-174 on the acquired frame: the start phase leads to `mid`,
        the result phase from `mid` to the final state, then the keys are
        dispatched and the pass is counted. */
    method Respond() returns (outcome: Outcome, ghost started: bool, ghost captured: bool, ghost mid: Phase)
      requires Valid()
      modifies this`frame, this`game, this`lastGamestart, this`towerResets, this`starts, this`trace
      modifies this`reported, this`lastCapture, this`captures, this`iteration, capture, timer
      ensures Valid()
      ensures outcome == Continue ==> iteration == old(iteration) + 1
      ensures outcome == Continue ==>
        StartDecided(scenes, timer.readings, old(timer.ticks), inGame, old(Snap()), mid, started)
      ensures outcome == Continue ==>
        ResultDecided(scenes, timer.readings, old(timer.ticks) + (if inGame then 0 else if started then 2 else 1), inGame,
                      mid, Snap(), capture.source, capture.position, captured)
      ensures outcome == Continue ==>
        trace == old(trace) + (if started then Calls(plugins, OnGameStart, None) else [])
          + (if captured then ResultCalls(plugins) else [])
          + Calls(plugins, OnFrameNext, None)
          + Calls(plugins, OnKeyPress, LastKey(plugins, old(iteration)))
    {
      captured, mid := false, Snap();
      ghost var rounds;
      outcome, started, rounds := StartPhase();
      if outcome != Continue {
        return;
      }
      mid := Snap();
      captured := Finish();
    }

    /** One pass of the `while True` loop: `seen` is the frame acquired at
        the top of the pass; from it and the tracked game the start phase
        leads to `mid`, the result phase from `mid` to the final state;
        then the keys are dispatched. */
    method Step() returns (outcome: Outcome, ghost started: bool, ghost captured: bool,
                           ghost seen: Option<Frame>, ghost mid: Phase)
      requires Valid()
      modifies this, capture, timer
      ensures Valid()
      ensures outcome == Continue ==> iteration == old(iteration) + 1
      ensures outcome == Continue ==>
        && NextFrame(capture.source, old(capture.position) + Decimation - 1).Some?
        && seen == FrameAt(capture.source, NextFrame(capture.source, old(capture.position) + Decimation - 1).value)
        && seen.Some? && inGame == scenes.timerIcon(seen)
      ensures outcome == Continue ==>
        StartDecided(scenes, timer.readings, old(timer.ticks), inGame,
                     old(Snap()).(frame := seen, game := Tracked(scenes, old(game), inGame, seen)), mid, started)
      ensures outcome == Continue ==>
        ResultDecided(scenes, timer.readings, old(timer.ticks) + (if inGame then 0 else if started then 2 else 1), inGame,
                      mid, Snap(), capture.source, capture.position, captured)
      ensures outcome == Continue ==>
        trace == old(trace) + Calls(plugins, OnFrameRead, None)
          + (if started then Calls(plugins, OnGameStart, None) else [])
          + (if captured then ResultCalls(plugins) else [])
          + Calls(plugins, OnFrameNext, None)
          + Calls(plugins, OnKeyPress, LastKey(plugins, old(iteration)))
    {
      started, captured, seen, mid := false, false, None, Snap();
      outcome := Observe();
      if outcome != Continue {
        return;
      }
      seen := frame;
      outcome, started, captured, mid := Respond();
    }

    /** The first `fuel` passes of the loop, or fewer when it stalls or
        crashes. */
    method Run(fuel: nat) returns (outcome: Outcome, steps: nat)
      requires Valid()
      modifies this, capture, timer
      ensures Valid()
      ensures steps <= fuel && (outcome == Continue ==> steps == fuel)
      ensures outcome == Continue ==> iteration == old(iteration) + fuel
    {
      outcome, steps := Continue, 0;
      while steps < fuel
        invariant steps <= fuel && Valid()
        invariant iteration == old(iteration) + steps
      {
        var o;
        ghost var s, c, f, g;
        o, s, c, f, g := Step();
        if o != Continue {
          return o, steps;
        }
        steps := steps + 1;
      }
    }
  }

  /** With a clock that never runs backwards, any two result dispatches are
      more than 60 s apart per dispatch between them, and any two starts
      more than 10 s. */
  lemma ResultsAndStartsSpaced(e: Engine, i: nat, j: nat)
    requires e.Valid() && Monotone(e.timer.readings)
    ensures i < j < |e.captures| ==>
      e.timer.readings(e.captures[j].stampedAt) - e.timer.readings(e.captures[i].stampedAt) > ResultGap * (j - i)
    ensures i < j < |e.starts| ==>
      e.timer.readings(e.starts[j].stampedAt) - e.timer.readings(e.starts[i].stampedAt) > StartGap * (j - i)
  {
    if i < j < |e.captures| {
      GatesSpaced(e.captures, e.timer.readings, e.initialCapture, ResultGap, i, j);
    }
    if i < j < |e.starts| {
      GatesSpaced(e.starts, e.timer.readings, e.initialGamestart, StartGap, i, j);
    }
  }
}
