/** WootRatEngine.run: the start-up checks, the translation of the configured
    key mapping into the eight channel keys, and the polling loop. The SDK
    read is an injected function of the tick number and the key; the mouse
    controller is replaced by the sequence of calls made on it. The loop runs
    until its stop event is set; the model runs it for a given number of
    ticks. */
module EngineLoop {
  import opened Common
  import opened KeyCodes
  import opened Pointer
  import CurveEngine

  /** The numeric and curve parameters of run. */
  datatype Config = Config(sensitivityM: real, sensitivityS: real, yAdjustment: real,
                           curveFactor: real, deadzone: real, outerDeadzone: real,
                           curveType: string)

  /** run's default arguments. */
  const DefaultConfig := Config(15.0, 0.5, 0.0, 2.0, 0.1, 1.0, "power")

  /** wooting_analog_read_analog: the depth of a key at a tick, None where the
      foreign call raises. */
  type Sdk = (nat, Value) -> Option<real>

  /** The keys comprehension: every string in the mapping becomes its KEYCODES
      entry, every other value is kept; None when some name is not in KEYCODES. */
  function TranslateKeys(t: KeyTable, keyMapping: map<string, Value>): (r: Option<map<string, Value>>)
    ensures r.Some? <==> forall a :: a in keyMapping ==> Resolve(t, keyMapping[a]).Some?
    ensures r.Some? ==> r.value.Keys == keyMapping.Keys &&
                        forall a :: a in keyMapping ==> Some(r.value[a]) == Resolve(t, keyMapping[a])
  {
    if forall a :: a in keyMapping ==> Resolve(t, keyMapping[a]).Some? then
      Some(map a | a in keyMapping :: Resolve(t, keyMapping[a]).value)
    else None
  }

  /** The first label, in order, that the dictionary does not hold. */
  function FirstMissing(labels: seq<string>, keys: map<string, Value>): (r: Option<string>)
    ensures r.None? <==> forall i :: 0 <= i < |labels| ==> labels[i] in keys
    ensures r.Some? ==> exists i :: 0 <= i < |labels| && labels[i] == r.value && r.value !in keys &&
                                    forall j :: 0 <= j < i ==> labels[j] in keys
    decreases |labels|
  {
    if labels == [] then None
    else if labels[0] !in keys then Some(labels[0])
    else
      var r := FirstMissing(labels[1..], keys);
      assert forall i :: 1 <= i < |labels| ==> labels[i] == labels[1..][i - 1];
      if r.Some? then
        ghost var k :| 0 <= k < |labels[1..]| && labels[1..][k] == r.value && r.value !in keys &&
                       forall j :: 0 <= j < k ==> labels[1..][j] in keys;
        assert labels[k + 1] == r.value;
        r
      else r
  }

  /** Only which labels a dictionary holds matters to FirstMissing. */
  lemma {:induction false} FirstMissingOnlyKeys(labels: seq<string>, a: map<string, Value>, b: map<string, Value>)
    requires a.Keys == b.Keys
    ensures FirstMissing(labels, a) == FirstMissing(labels, b)
    decreases |labels|
  {
    if labels != [] {
      FirstMissingOnlyKeys(labels[1..], a, b);
    }
  }

  /** The key set-up of run before its loop: key_mapping must be a dictionary,
      every key name in it must be in KEYCODES, and each of the eight direction
      labels must be present; the result is the key of each channel. */
  function ResolveKeys(keyMapping: Option<map<string, Value>>, labels: seq<string>, t: KeyTable)
    : (r: Result<Channels<Value>>)
    requires |labels| == 8
    ensures r == Err(NoKeyMapping) <==> keyMapping.None?
    ensures r == Err(UnknownKeyName) <==>
            keyMapping.Some? && exists a :: a in keyMapping.value && Resolve(t, keyMapping.value[a]).None?
    ensures r.Err? && r.error.MissingDirection? ==>
            keyMapping.Some? && r.error.direction in labels && r.error.direction !in keyMapping.value
    // A mapping whose names all resolve but which lacks a label raises for the
    // first absent label in the order of the labels.
    ensures keyMapping.Some? && TranslateKeys(t, keyMapping.value).Some? &&
            FirstMissing(labels, keyMapping.value).Some? ==>
              r == Err(MissingDirection(FirstMissing(labels, keyMapping.value).value))
    ensures r.Ok? <==> keyMapping.Some? && TranslateKeys(t, keyMapping.value).Some? &&
                       forall i :: 0 <= i < 8 ==> labels[i] in keyMapping.value
    ensures r.Ok? ==>
      var km := keyMapping.value;
      Some(r.value.up) == Resolve(t, km[labels[0]]) && Some(r.value.down) == Resolve(t, km[labels[1]]) &&
      Some(r.value.left) == Resolve(t, km[labels[2]]) && Some(r.value.right) == Resolve(t, km[labels[3]]) &&
      Some(r.value.scrollUp) == Resolve(t, km[labels[4]]) &&
      Some(r.value.scrollDown) == Resolve(t, km[labels[5]]) &&
      Some(r.value.scrollLeft) == Resolve(t, km[labels[6]]) &&
      Some(r.value.scrollRight) == Resolve(t, km[labels[7]])
  {
    if keyMapping.None? then Err(NoKeyMapping)
    else
      match TranslateKeys(t, keyMapping.value)
      case None => Err(UnknownKeyName)
      case Some(keys) =>
        FirstMissingOnlyKeys(labels, keys, keyMapping.value);
        match FirstMissing(labels, keys)
        case Some(l) => Err(MissingDirection(l))
        case None =>
          Ok(Channels(keys[labels[0]], keys[labels[1]], keys[labels[2]], keys[labels[3]],
                      keys[labels[4]], keys[labels[5]], keys[labels[6]], keys[labels[7]]))
  }

  /** The eight reads of one tick; None as soon as one of them raises. */
  function ReadTick(sdk: Sdk, tick: nat, keys: Channels<Value>): Option<Channels<real>> {
    var up, down, left, right := sdk(tick, keys.up), sdk(tick, keys.down), sdk(tick, keys.left), sdk(tick, keys.right);
    var su, sd, sr, sl := sdk(tick, keys.scrollUp), sdk(tick, keys.scrollDown),
                          sdk(tick, keys.scrollRight), sdk(tick, keys.scrollLeft);
    if up.Some? && down.Some? && left.Some? && right.Some? && su.Some? && sd.Some? && sr.Some? && sl.Some? then
      Some(Channels(up.value, down.value, left.value, right.value, su.value, sd.value, sl.value, sr.value))
    else None
  }

  /** process_input with the loop's shared parameters. */
  function Process(m: Math, cfg: Config, raw: real): Result<real> {
    CurveEngine.ProcessInput(m, raw, cfg.deadzone, cfg.curveFactor, cfg.outerDeadzone, cfg.curveType)
  }

  /** The curve every channel goes through. */
  function Curve(m: Math, cfg: Config): real -> Result<real> {
    x => Process(m, cfg, x)
  }

  /** The calls one tick makes. Any exception inside the tick is caught by the
      loop, so a tick whose reading or processing raises makes no call. */
  function TickEvents(m: Math, cfg: Config, readings: Option<Channels<real>>): seq<Event> {
    if readings.None? then []
    else
      match TickMotion(Curve(m, cfg), readings.value, cfg.sensitivityM, cfg.sensitivityS, cfg.yAdjustment)
      case Err(_) => []
      case Ok(evs) => evs
  }

  /** The calls made during the first n ticks. */
  function Events(m: Math, cfg: Config, keys: Channels<Value>, sdk: Sdk, n: nat): seq<Event> {
    Calls(Passes(m, cfg, keys, sdk), n)
  }

  /** The calls of the loop's passes, tick by tick. */
  function Passes(m: Math, cfg: Config, keys: Channels<Value>, sdk: Sdk): nat -> seq<Event> {
    (tick: nat) => TickEvents(m, cfg, ReadTick(sdk, tick, keys))
  }

  /** What run does for `ticks` iterations before its stop event is set: the
      error it raises before the loop, or the calls the loop makes. */
  function RunResult(m: Math, cfg: Config, keyMapping: Option<map<string, Value>>, stopEventGiven: bool,
                     labels: seq<string>, t: KeyTable, sdk: Sdk, ticks: nat): Result<seq<Event>>
    requires |labels| == 8
  {
    if !stopEventGiven then Err(MissingStopEvent)
    else
      match ResolveKeys(keyMapping, labels, t)
      case Err(e) => Err(e)
      case Ok(keys) => Ok(Events(m, cfg, keys, sdk, ticks))
  }

  /** The eight reads at the top of the loop body, in the order the source
      makes them; the first that raises aborts the tick. */
  method ReadChannels(sdk: Sdk, tick: nat, keys: Channels<Value>) returns (r: Option<Channels<real>>)
    ensures r == ReadTick(sdk, tick, keys)
  {
    r := None;
    var valUp := sdk(tick, keys.up);
    if valUp.None? { return; }
    var valDown := sdk(tick, keys.down);
    if valDown.None? { return; }
    var valLeft := sdk(tick, keys.left);
    if valLeft.None? { return; }
    var valRight := sdk(tick, keys.right);
    if valRight.None? { return; }
    var valScrlUp := sdk(tick, keys.scrollUp);
    if valScrlUp.None? { return; }
    var valScrlDown := sdk(tick, keys.scrollDown);
    if valScrlDown.None? { return; }
    var valScrlRight := sdk(tick, keys.scrollRight);
    if valScrlRight.None? { return; }
    var valScrlLeft := sdk(tick, keys.scrollLeft);
    if valScrlLeft.None? { return; }
    r := Some(Channels(valUp.value, valDown.value, valLeft.value, valRight.value,
                       valScrlUp.value, valScrlDown.value, valScrlLeft.value, valScrlRight.value));
  }

  /** One pass of the loop body; an exception anywhere in it is caught. */
  method Tick(m: Math, cfg: Config, sdk: Sdk, tick: nat, keys: Channels<Value>) returns (events: seq<Event>)
    ensures events == TickEvents(m, cfg, ReadTick(sdk, tick, keys))
    ensures AllNonZero(events)
  {
    var readings := ReadChannels(sdk, tick, keys);
    if readings.None? {
      return [];
    }
    var res := Accumulate(Curve(m, cfg), readings.value,
                          cfg.sensitivityM, cfg.sensitivityS, cfg.yAdjustment);
    events := if res.Ok? then res.value else [];
    TickNonZero(m, cfg, readings);
  }

  /** run(...): the checks before the loop, then `ticks` iterations of it. */
  method Run(m: Math, cfg: Config, keyMapping: Option<map<string, Value>>, stopEventGiven: bool,
             labels: seq<string>, t: KeyTable, sdk: Sdk, ticks: nat) returns (r: Result<seq<Event>>)
    requires |labels| == 8
    ensures r == RunResult(m, cfg, keyMapping, stopEventGiven, labels, t, sdk, ticks)
    ensures r.Err? <==> !stopEventGiven || ResolveKeys(keyMapping, labels, t).Err?
    ensures r.Ok? ==> AllNonZero(r.value)
  {
    if !stopEventGiven {
      return Err(MissingStopEvent);
    }
    var keys := ResolveKeys(keyMapping, labels, t);
    if keys.Err? {
      return Err(keys.error);
    }
    var events := Poll(m, cfg, keys.value, sdk, ticks);
    return Ok(events);
  }

  /** The `while not stop_event.is_set()` loop, for `ticks` iterations. */
  method Poll(m: Math, cfg: Config, keys: Channels<Value>, sdk: Sdk, ticks: nat) returns (events: seq<Event>)
    ensures events == Events(m, cfg, keys, sdk, ticks)
    ensures AllNonZero(events)
  {
    ghost var pass := Passes(m, cfg, keys, sdk);
    events := [];
    var tick := 0;
    while tick < ticks
      invariant 0 <= tick <= ticks
      invariant events == Calls(pass, tick)
      invariant AllNonZero(events)
    {
      var tickEvents := Tick(m, cfg, sdk, tick, keys);
      assert tickEvents == pass(tick);
      CallsStep(pass, tick);
      AppendNonZero(events, tickEvents);
      events := events + tickEvents;
      tick := tick + 1;
    }
  }

  /** Every call a tick makes carries a nonzero vector. */
  lemma TickNonZero(m: Math, cfg: Config, readings: Option<Channels<real>>)
    ensures AllNonZero(TickEvents(m, cfg, readings))
  {
    if readings.Some? && ProcessAll(Curve(m, cfg), readings.value).Ok? {
      DispatchNonZero(Combine(ProcessAll(Curve(m, cfg), readings.value).value,
                              cfg.sensitivityM, cfg.sensitivityS, cfg.yAdjustment));
    }
  }

  /** A tick whose eight readings all lie below the deadzone makes no call. */
  lemma IdleTickDispatchesNothing(m: Math, cfg: Config, r: Channels<real>)
    requires r.up < cfg.deadzone && r.down < cfg.deadzone && r.left < cfg.deadzone && r.right < cfg.deadzone
    requires r.scrollUp < cfg.deadzone && r.scrollDown < cfg.deadzone
    requires r.scrollLeft < cfg.deadzone && r.scrollRight < cfg.deadzone
    ensures TickEvents(m, cfg, Some(r)) == []
  {
    IdleDispatchesNothing(cfg.sensitivityM, cfg.sensitivityS, cfg.yAdjustment);
  }

  /** A tick whose opposing readings are pairwise equal, all eight at 0
      included, makes no call, whatever the deadzone, the curve type and the
      curve functions. */
  lemma BalancedTickDispatchesNothing(m: Math, cfg: Config, r: Channels<real>)
    requires r.up == r.down && r.left == r.right && r.scrollUp == r.scrollDown && r.scrollLeft == r.scrollRight
    ensures TickEvents(m, cfg, Some(r)) == []
  {
    BalancedReadingsMakeNoCall(Curve(m, cfg), r, cfg.sensitivityM, cfg.sensitivityS, cfg.yAdjustment);
  }

  /** Equal opposing presses cancel: with up as deep as down and left as deep
      as right the tick never moves the pointer, whatever the parameters. */
  lemma OpposingPressesCancel(m: Math, cfg: Config, r: Channels<real>)
    requires r.up == r.down && r.left == r.right
    ensures forall e :: e in TickEvents(m, cfg, Some(r)) ==> e.Scroll?
  {
    var p := ProcessAll(Curve(m, cfg), r);
    if p.Ok? {
      CombineCancels(p.value, cfg.sensitivityM, cfg.sensitivityS, cfg.yAdjustment);
    }
  }

  /** Exceptions inside a tick never stop the loop, and with invalid parameters
      every tick raises: the loop keeps running and never touches the mouse. */
  lemma InvalidParametersNeverDispatch(m: Math, cfg: Config, keys: Channels<Value>, sdk: Sdk, n: nat)
    requires !CurveEngine.ValidParameters(cfg.deadzone, cfg.curveFactor, cfg.outerDeadzone)
    ensures Events(m, cfg, keys, sdk, n) == []
  {
    QuietPassesMakeNoCalls(Passes(m, cfg, keys, sdk), n);
  }

  /** A key is idle at a tick when its read fails or lies below the deadzone. */
  predicate Idle(cfg: Config, sdk: Sdk, tick: nat, key: Value) {
    sdk(tick, key).None? || sdk(tick, key).value < cfg.deadzone
  }

  /** All eight channel keys are idle at the tick. */
  predicate IdleTick(cfg: Config, sdk: Sdk, tick: nat, keys: Channels<Value>) {
    Idle(cfg, sdk, tick, keys.up) && Idle(cfg, sdk, tick, keys.down) &&
    Idle(cfg, sdk, tick, keys.left) && Idle(cfg, sdk, tick, keys.right) &&
    Idle(cfg, sdk, tick, keys.scrollUp) && Idle(cfg, sdk, tick, keys.scrollDown) &&
    Idle(cfg, sdk, tick, keys.scrollLeft) && Idle(cfg, sdk, tick, keys.scrollRight)
  }

  lemma IdleTickReadsNothing(m: Math, cfg: Config, sdk: Sdk, tick: nat, keys: Channels<Value>)
    requires IdleTick(cfg, sdk, tick, keys)
    ensures TickEvents(m, cfg, ReadTick(sdk, tick, keys)) == []
  {
    var rd := ReadTick(sdk, tick, keys);
    if rd.Some? {
      IdleTickDispatchesNothing(m, cfg, rd.value);
    }
  }

  /** If every channel key is idle at every tick, the whole run makes no call. */
  lemma IdleRunDispatchesNothing(m: Math, cfg: Config, keys: Channels<Value>, sdk: Sdk, n: nat)
    requires forall tick :: 0 <= tick < n ==> IdleTick(cfg, sdk, tick, keys)
    ensures Events(m, cfg, keys, sdk, n) == []
  {
    forall tick | 0 <= tick < n
      ensures Passes(m, cfg, keys, sdk)(tick) == []
    {
      IdleTickReadsNothing(m, cfg, sdk, tick, keys);
    }
    QuietPassesMakeNoCalls(Passes(m, cfg, keys, sdk), n);
  }

  /** With the y adjustment at 1 the pointer never moves vertically. */
  lemma FullYAdjustmentStopsVerticalMotion(m: Math, cfg: Config, readings: Option<Channels<real>>)
    requires cfg.yAdjustment == 1.0
    ensures forall e :: e in TickEvents(m, cfg, readings) && e.Move? ==> e.dy == 0.0
  {
  }

  /** With run's default parameters process_input never raises, so every tick
      whose reads succeed makes exactly the calls of its combined motion. */
  lemma DefaultsNeverRaise(m: Math, r: Channels<real>)
    ensures ProcessAll(Curve(m, DefaultConfig), r).Ok?
    ensures TickEvents(m, DefaultConfig, Some(r)) ==
              Dispatch(Combine(ProcessAll(Curve(m, DefaultConfig), r).value,
                               DefaultConfig.sensitivityM, DefaultConfig.sensitivityS, DefaultConfig.yAdjustment))
  {
    assert CurveEngine.ValidParameters(DefaultConfig.deadzone, DefaultConfig.curveFactor, DefaultConfig.outerDeadzone);
    assert CurveEngine.KnownCurve(DefaultConfig.curveType);
  }
}
