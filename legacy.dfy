/** The second generation (logic/woot_rat.py): a power curve with an inner
    deadzone only, a fixed table of three key layouts, and a polling loop
    whose exceptions are not caught, so the first one ends the thread. */
module Legacy {
  import opened Common
  import opened Pointer
  import CurveEngine

  // Key codes of the SDK, as the module defines them.
  const KEY_W: int := 0x1A
  const KEY_A: int := 0x04
  const KEY_S: int := 0x16
  const KEY_D: int := 0x07
  const KEY_UP: int := 0x52
  const KEY_DOWN: int := 0x51
  const KEY_LEFT: int := 0x50
  const KEY_RIGHT: int := 0x4F
  const KEY_F13: int := 0x68
  const KEY_F14: int := 0x69
  const KEY_F15: int := 0x6A
  const KEY_F16: int := 0x6B
  const KEY_F17: int := 0x6C
  const KEY_F18: int := 0x6D
  const KEY_F19: int := 0x6E
  const KEY_F20: int := 0x6F

  /** A binding tuple, in the order it is unpacked: up, down, left, right,
      scroll up, scroll down, scroll right, scroll left. */
  function Binding(up: int, down: int, left: int, right: int,
                   scrollUp: int, scrollDown: int, scrollRight: int, scrollLeft: int): Channels<int> {
    Channels(up, down, left, right, scrollUp, scrollDown, scrollLeft, scrollRight)
  }

  /** The key_bindings table. */
  const KeyBindingTable: map<string, Channels<int>> := map[
    "Arrow Keys" := Binding(KEY_UP, KEY_DOWN, KEY_LEFT, KEY_RIGHT, KEY_F17, KEY_F18, KEY_F19, KEY_F20),
    "WASD Keys" := Binding(KEY_W, KEY_S, KEY_A, KEY_D, KEY_F17, KEY_F18, KEY_F19, KEY_F20),
    "F13-F16 Keys" := Binding(KEY_F13, KEY_F15, KEY_F14, KEY_F16, KEY_F17, KEY_F18, KEY_F19, KEY_F20)
  ]

  /** key_bindings.get(key_mapping, key_bindings["F13-F16 Keys"]): only a
      string naming a layout finds it, any other value falls back. */
  function KeyBindings(keyMapping: Value): (b: Channels<int>)
    // Movement keys of each named layout.
    ensures keyMapping == Str("Arrow Keys") ==>
              b.up == KEY_UP && b.down == KEY_DOWN && b.left == KEY_LEFT && b.right == KEY_RIGHT
    ensures keyMapping == Str("WASD Keys") ==> b.up == KEY_W && b.down == KEY_S && b.left == KEY_A && b.right == KEY_D
    // Any other value, the F13-F16 name, None and non-strings included, selects
    // up F13, down F15, left F14, right F16.
    ensures keyMapping != Str("Arrow Keys") && keyMapping != Str("WASD Keys") ==>
              b.up == KEY_F13 && b.down == KEY_F15 && b.left == KEY_F14 && b.right == KEY_F16
    // Every layout scrolls with F17/F18, and binds F19 to scroll right and F20 to scroll left.
    ensures b.scrollUp == KEY_F17 && b.scrollDown == KEY_F18 && b.scrollRight == KEY_F19 && b.scrollLeft == KEY_F20
  {
    if keyMapping.Str? && keyMapping.s in KeyBindingTable then KeyBindingTable[keyMapping.s]
    else KeyBindingTable["F13-F16 Keys"]
  }

  /** process_input(raw_value, deadzone, curve_factor): no parameter check, no
      outer deadzone and no clamp. The division raises when deadzone is 1, and
      the built-in pow raises for a zero base, which a reading exactly at the
      deadzone gives, and a negative curve factor. */
  function ProcessInput(m: Math, raw: real, deadzone: real, curveFactor: real): (r: Result<real>)
    ensures raw < deadzone ==> r == Ok(0.0)
    ensures r.Err? <==> raw >= deadzone && (deadzone == 1.0 || (raw == deadzone && curveFactor < 0.0))
    ensures r.Err? ==> r.error == ZeroDivision
  {
    if raw < deadzone then Ok(0.0)
    else if 1.0 - deadzone == 0.0 then Err(ZeroDivision)
    else
      var adj := (raw - deadzone) / (1.0 - deadzone);
      if adj == 0.0 && curveFactor < 0.0 then Err(ZeroDivision)
      else Ok(m.pow(adj, curveFactor))
  }

  /** Within [deadzone, 1], away from a zero base under a negative factor,
      the curve succeeds with pow of a base in [0, 1], from 0 at the deadzone
      to 1 at full travel. */
  lemma NormalisedInUnitInterval(m: Math, raw: real, deadzone: real, curveFactor: real)
    requires deadzone < 1.0 && deadzone <= raw <= 1.0 && (raw > deadzone || curveFactor >= 0.0)
    ensures var q := (raw - deadzone) / (1.0 - deadzone);
            0.0 <= q <= 1.0 &&
            ProcessInput(m, raw, deadzone, curveFactor) == Ok(m.pow(q, curveFactor)) &&
            (raw == deadzone ==> q == 0.0) && (raw == 1.0 ==> q == 1.0)
  {
    CurveEngine.QuotientInUnitInterval(raw - deadzone, 1.0 - deadzone);
    if raw == 1.0 {
      CurveEngine.SelfQuotient(1.0 - deadzone);
    }
  }

  /** Nothing caps the input: travel past 1 hands pow a base above 1, where
      the engine's power curve, with its outer deadzone at 1, saturates at 1. */
  lemma NoOuterCap(m: Math, raw: real, deadzone: real, curveFactor: real)
    requires 0.0 <= deadzone < 1.0 && curveFactor > 0.0 && raw > 1.0
    ensures var q := (raw - deadzone) / (1.0 - deadzone);
            q > 1.0 &&
            ProcessInput(m, raw, deadzone, curveFactor) == Ok(m.pow(q, curveFactor)) &&
            CurveEngine.ProcessInput(m, raw, deadzone, curveFactor, 1.0, "power") == Ok(1.0)
  {
    var w := 1.0 - deadzone;
    CurveEngine.SelfQuotient(w);
    CurveEngine.QuotientMonotone(w, raw - deadzone, w);
    assert (raw - deadzone) / w - w / w == (raw - 1.0) / w;
    assert (raw - 1.0) / w * w == raw - 1.0;
  }

  /** Nothing checks the parameters: with any deadzone but 1, every curve
      factor, zero and negative ones included, gives a value everywhere except
      at the deadzone itself, where a negative factor makes pow raise. */
  lemma NoParameterValidation(m: Math, raw: real, deadzone: real, curveFactor: real)
    requires deadzone != 1.0
    ensures raw != deadzone ==> ProcessInput(m, raw, deadzone, curveFactor).Ok?
    ensures raw == deadzone ==> (ProcessInput(m, raw, deadzone, curveFactor).Ok? <==> curveFactor >= 0.0)
  {
  }

  /** On travel up to full depth this curve is the current engine's power curve
      with the outer deadzone at 1; the two generations part only beyond it. */
  lemma AgreesWithEnginePowerCurve(m: Math, raw: real, deadzone: real, curveFactor: real)
    requires CurveEngine.ValidParameters(deadzone, curveFactor, 1.0)
    requires raw <= 1.0
    ensures ProcessInput(m, raw, deadzone, curveFactor) == CurveEngine.ProcessInput(m, raw, deadzone, curveFactor, 1.0, "power")
  {
    if raw >= deadzone {
      CurveEngine.ClampIsNoOpInBand(raw, deadzone, 1.0);
    }
  }

  /** run_woot_rat's numeric parameters. */
  datatype Config = Config(sensitivityM: real, sensitivityS: real, deadzone: real,
                           curveFactor: real, yAdjustment: real)

  /** run_woot_rat's default arguments. */
  const DefaultConfig := Config(15.0, 0.5, 0.1, 2.0, 0.0)

  /** wooting_analog_read_analog on a key code at a tick. */
  type Sdk = (nat, int) -> real

  function ReadTick(sdk: Sdk, tick: nat, keys: Channels<int>): Channels<real> {
    Channels(sdk(tick, keys.up), sdk(tick, keys.down), sdk(tick, keys.left), sdk(tick, keys.right),
             sdk(tick, keys.scrollUp), sdk(tick, keys.scrollDown),
             sdk(tick, keys.scrollLeft), sdk(tick, keys.scrollRight))
  }

  function Curve(m: Math, cfg: Config): real -> Result<real> {
    x => ProcessInput(m, x, cfg.deadzone, cfg.curveFactor)
  }

  /** The calls one pass of the loop body makes, or the exception it raises. */
  function TickResult(m: Math, cfg: Config, sdk: Sdk, tick: nat, keys: Channels<int>): Result<seq<Event>> {
    TickMotion(Curve(m, cfg), ReadTick(sdk, tick, keys), cfg.sensitivityM, cfg.sensitivityS, cfg.yAdjustment)
  }

  /** The passes of the loop, tick by tick. */
  function Passes(m: Math, cfg: Config, keys: Channels<int>, sdk: Sdk): nat -> Result<seq<Event>> {
    (tick: nat) => TickResult(m, cfg, sdk, tick, keys)
  }

  /** The trace after at most n iterations of the loop: an iteration that
      raises ends the thread before it makes any call. */
  function RunTrace(m: Math, cfg: Config, keys: Channels<int>, sdk: Sdk, n: nat): Trace {
    TraceOf(Passes(m, cfg, keys, sdk), n)
  }

  /** run_woot_rat(...) for `ticks` iterations of its loop; a stop_event left
      at its default False raises at the first loop test. */
  function RunResult(m: Math, cfg: Config, keyMapping: Value, stopEventGiven: bool, sdk: Sdk, ticks: nat): Trace {
    if !stopEventGiven then Trace([], Some(StopEventNotAnEvent))
    else RunTrace(m, cfg, KeyBindings(keyMapping), sdk, ticks)
  }

  method RunWootRat(m: Math, cfg: Config, keyMapping: Value, stopEventGiven: bool, sdk: Sdk, ticks: nat)
    returns (trace: Trace)
    ensures trace == RunResult(m, cfg, keyMapping, stopEventGiven, sdk, ticks)
    ensures AllNonZero(trace.events)
  {
    var keys := KeyBindings(keyMapping);
    if !stopEventGiven {
      return Trace([], Some(StopEventNotAnEvent));
    }
    trace := Poll(m, cfg, keys, sdk, ticks);
  }

  /** The `while not stop_event.is_set()` loop, for at most `ticks` passes. */
  method Poll(m: Math, cfg: Config, keys: Channels<int>, sdk: Sdk, ticks: nat) returns (trace: Trace)
    ensures trace == RunTrace(m, cfg, keys, sdk, ticks)
    ensures AllNonZero(trace.events)
  {
    var events: seq<Event> := [];
    var tick := 0;
    while tick < ticks
      invariant 0 <= tick <= ticks
      invariant RunTrace(m, cfg, keys, sdk, tick) == Trace(events, None)
      invariant AllNonZero(events)
    {
      var res := Tick(m, cfg, sdk, tick, keys);
      assert res == Passes(m, cfg, keys, sdk)(tick);
      TraceStep(Passes(m, cfg, keys, sdk), tick);
      if res.Err? {
        CrashIsFinal(Passes(m, cfg, keys, sdk), tick + 1, ticks);
        return Trace(events, Some(res.error));
      }
      AppendNonZero(events, res.value);
      events := events + res.value;
      tick := tick + 1;
    }
    return Trace(events, None);
  }

  /** One pass of the loop body: the eight reads, then the accumulation and
      the guarded calls, or the exception that ends the thread. */
  method Tick(m: Math, cfg: Config, sdk: Sdk, tick: nat, keys: Channels<int>) returns (res: Result<seq<Event>>)
    ensures res == TickResult(m, cfg, sdk, tick, keys)
    ensures res.Ok? ==> AllNonZero(res.value)
  {
    var readings := ReadTick(sdk, tick, keys);
    res := Accumulate(Curve(m, cfg), readings, cfg.sensitivityM, cfg.sensitivityS, cfg.yAdjustment);
    TickNonZero(m, cfg, sdk, tick, keys);
  }

  /** Every call a pass of the loop makes carries a nonzero vector. */
  lemma TickNonZero(m: Math, cfg: Config, sdk: Sdk, tick: nat, keys: Channels<int>)
    ensures TickResult(m, cfg, sdk, tick, keys).Ok? ==> AllNonZero(TickResult(m, cfg, sdk, tick, keys).value)
  {
    var p := ProcessAll(Curve(m, cfg), ReadTick(sdk, tick, keys));
    if p.Ok? {
      DispatchNonZero(Combine(p.value, cfg.sensitivityM, cfg.sensitivityS, cfg.yAdjustment));
    }
  }

  /** A pass raises only by process_input's division by zero or pow's zero
      base, and so never while the deadzone differs from 1 and the curve
      factor is not negative. */
  lemma TickRaisesOnlyAtFullDeadzone(m: Math, cfg: Config, sdk: Sdk, tick: nat, keys: Channels<int>)
    requires cfg.deadzone != 1.0 && cfg.curveFactor >= 0.0
    ensures TickResult(m, cfg, sdk, tick, keys).Ok?
  {
    assert ProcessAll(Curve(m, cfg), ReadTick(sdk, tick, keys)).Ok?;
  }

  /** The thread can only die of a ZeroDivisionError, and so never dies while
      the deadzone differs from 1 and the curve factor is not negative: it then
      makes the calls of every pass. */
  lemma NoCrashUnlessFullDeadzone(m: Math, cfg: Config, keys: Channels<int>, sdk: Sdk, n: nat)
    requires cfg.deadzone != 1.0 && cfg.curveFactor >= 0.0
    ensures RunTrace(m, cfg, keys, sdk, n).error.None?
    ensures RunTrace(m, cfg, keys, sdk, n).events ==
              Calls((tick: nat) => var t := TickResult(m, cfg, sdk, tick, keys); if t.Ok? then t.value else [], n)
  {
    var calls := (tick: nat) => var t := TickResult(m, cfg, sdk, tick, keys); if t.Ok? then t.value else [];
    forall tick | 0 <= tick < n
      ensures Passes(m, cfg, keys, sdk)(tick) == Ok(calls(tick))
    {
      TickRaisesOnlyAtFullDeadzone(m, cfg, sdk, tick, keys);
    }
    NoRaiseNoCrash(Passes(m, cfg, keys, sdk), calls, n);
  }

  /** With a negative curve factor, a first reading of the up key exactly at
      the deadzone (an idle key at 0.0 with deadzone 0, say) ends the thread
      on its first pass, before any call. */
  lemma ZeroBaseEndsThread(m: Math, cfg: Config, keys: Channels<int>, sdk: Sdk)
    requires cfg.deadzone != 1.0 && cfg.curveFactor < 0.0
    requires sdk(0, keys.up) == cfg.deadzone
    ensures RunTrace(m, cfg, keys, sdk, 1) == Trace([], Some(ZeroDivision))
  {
    assert TickResult(m, cfg, sdk, 0, keys) == Err(ZeroDivision);
  }

  /** Started with its default numeric arguments and a stop event, the thread
      never dies, whatever the layout and the readings. */
  lemma DefaultsNeverCrash(m: Math, keyMapping: Value, sdk: Sdk, ticks: nat)
    ensures RunResult(m, DefaultConfig, keyMapping, true, sdk, ticks).error.None?
  {
    NoCrashUnlessFullDeadzone(m, DefaultConfig, KeyBindings(keyMapping), sdk, ticks);
  }

  /** Pairwise equal readings (all at rest, say) make no call: opposing
      channels cancel whatever the curve gives them. */
  lemma BalancedTickDispatchesNothing(m: Math, cfg: Config, sdk: Sdk, tick: nat, keys: Channels<int>)
    requires var r := ReadTick(sdk, tick, keys);
             r.up == r.down && r.left == r.right && r.scrollUp == r.scrollDown && r.scrollLeft == r.scrollRight
    ensures TickResult(m, cfg, sdk, tick, keys).Ok? ==> TickResult(m, cfg, sdk, tick, keys).value == []
  {
    BalancedReadingsMakeNoCall(Curve(m, cfg), ReadTick(sdk, tick, keys), cfg.sensitivityM, cfg.sensitivityS, cfg.yAdjustment);
  }
}
