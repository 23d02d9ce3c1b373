/** The first generation (WootRat.py): a six-key layout chosen by a `match`,
    readings that count only strictly above the deadzone, vertical scrolling
    only, no y adjustment, and a loop whose exceptions are not caught. Its
    process_input and key codes are those of the second generation. */
module Classic {
  import opened Common
  import opened Pointer
  import Legacy

  /** The six key codes a layout binds. */
  datatype Layout = Layout(up: int, down: int, left: int, right: int, scrollUp: int, scrollDown: int)

  /** The `match key_mapping` statement; a value that is not one of the three
      names, None and non-strings included, takes the wildcard case. */
  function SelectLayout(keyMapping: Value): (l: Layout)
    ensures keyMapping == Str("Arrow Keys") ==>
              l.up == Legacy.KEY_UP && l.down == Legacy.KEY_DOWN && l.left == Legacy.KEY_LEFT && l.right == Legacy.KEY_RIGHT
    ensures keyMapping == Str("WASD Keys") ==>
              l.up == Legacy.KEY_W && l.down == Legacy.KEY_S && l.left == Legacy.KEY_A && l.right == Legacy.KEY_D
    ensures keyMapping != Str("Arrow Keys") && keyMapping != Str("WASD Keys") ==>
              l.up == Legacy.KEY_F13 && l.down == Legacy.KEY_F15 && l.left == Legacy.KEY_F14 && l.right == Legacy.KEY_F16
    // Every case scrolls with F17/F18, so both scroll codes are nonzero.
    ensures l.scrollUp == Legacy.KEY_F17 && l.scrollDown == Legacy.KEY_F18
    ensures l.scrollUp != 0 && l.scrollDown != 0
  {
    if keyMapping == Str("Arrow Keys") then
      Layout(Legacy.KEY_UP, Legacy.KEY_DOWN, Legacy.KEY_LEFT, Legacy.KEY_RIGHT, Legacy.KEY_F17, Legacy.KEY_F18)
    else if keyMapping == Str("WASD Keys") then
      Layout(Legacy.KEY_W, Legacy.KEY_S, Legacy.KEY_A, Legacy.KEY_D, Legacy.KEY_F17, Legacy.KEY_F18)
    else if keyMapping == Str("F13-F16 Keys") then
      Layout(Legacy.KEY_F13, Legacy.KEY_F15, Legacy.KEY_F14, Legacy.KEY_F16, Legacy.KEY_F17, Legacy.KEY_F18)
    else
      Layout(Legacy.KEY_F13, Legacy.KEY_F15, Legacy.KEY_F14, Legacy.KEY_F16, Legacy.KEY_F17, Legacy.KEY_F18)
  }

  /** For every setting, named layouts, other strings, None and non-strings
      alike, the two generations bind the same movement and vertical scroll keys. */
  lemma LayoutsMatchSecondGeneration(keyMapping: Value)
    ensures var l := SelectLayout(keyMapping);
            var b := Legacy.KeyBindings(keyMapping);
            l == Layout(b.up, b.down, b.left, b.right, b.scrollUp, b.scrollDown)
  {
  }

  /** The six readings of one pass, in the order the loop takes them. */
  datatype Readings = Readings(up: real, left: real, down: real, right: real, scrollUp: real, scrollDown: real)

  /** The reads of one pass: the scroll keys are read only when both their codes
      are nonzero, otherwise both scroll readings are 0. */
  function ReadTick(sdk: Legacy.Sdk, tick: nat, l: Layout): Readings {
    var scroll := if l.scrollUp != 0 && l.scrollDown != 0 then (sdk(tick, l.scrollUp), sdk(tick, l.scrollDown)) else (0.0, 0.0);
    Readings(sdk(tick, l.up), sdk(tick, l.left), sdk(tick, l.down), sdk(tick, l.right), scroll.0, scroll.1)
  }

  /** With any selected layout the guard holds: the scroll keys are always read. */
  lemma ScrollKeysAlwaysRead(sdk: Legacy.Sdk, tick: nat, keyMapping: Value)
    ensures var l := SelectLayout(keyMapping);
            var r := ReadTick(sdk, tick, l);
            r.scrollUp == sdk(tick, Legacy.KEY_F17) && r.scrollDown == sdk(tick, Legacy.KEY_F18)
  {
  }

  /** run_woot_rat's numeric parameters. */
  datatype Config = Config(sensitivityM: real, sensitivityS: real, deadzone: real, curveFactor: real)

  /** What one reading adds before it is scaled: process_input of it when it is
      strictly above the deadzone, else nothing and no call. */
  function Contribution(m: Math, raw: real, cfg: Config): (r: Result<real>)
    ensures raw <= cfg.deadzone ==> r == Ok(0.0)
    ensures r.Err? <==> raw > cfg.deadzone && cfg.deadzone == 1.0
  {
    if raw > cfg.deadzone then Legacy.ProcessInput(m, raw, cfg.deadzone, cfg.curveFactor) else Ok(0.0)
  }

  /** The guard only changes the value at the deadzone itself: wherever
      process_input gives 0 there (pow(0, cf) == 0), the guarded reading and an
      unguarded call agree. */
  lemma GuardAgreesWithUnguardedCall(m: Math, raw: real, cfg: Config)
    requires cfg.deadzone != 1.0 && cfg.curveFactor >= 0.0
    requires m.pow(0.0, cfg.curveFactor) == 0.0
    ensures Contribution(m, raw, cfg) == Legacy.ProcessInput(m, raw, cfg.deadzone, cfg.curveFactor)
  {
    if raw == cfg.deadzone {
      var w := 1.0 - cfg.deadzone;
      assert raw - cfg.deadzone == 0.0;
      assert 0.0 / w * w == 0.0;
    }
  }

  /** Where the guard does matter: at the deadzone with a negative curve
      factor an unguarded call would raise from pow's zero base, and the
      guarded reading contributes nothing instead. */
  lemma GuardSparesZeroBase(m: Math, cfg: Config)
    requires cfg.deadzone != 1.0 && cfg.curveFactor < 0.0
    ensures Legacy.ProcessInput(m, cfg.deadzone, cfg.deadzone, cfg.curveFactor) == Err(ZeroDivision)
    ensures Contribution(m, cfg.deadzone, cfg) == Ok(0.0)
  {
  }

  /** The motion of one pass, or the exception that aborts it; scrolling goes
      only along the vertical axis, and vertical motion is not adjusted. */
  function TickMotion(m: Math, cfg: Config, r: Readings): (res: Result<Motion>)
    ensures res.Err? <==> cfg.deadzone == 1.0 &&
                          (r.up > 1.0 || r.down > 1.0 || r.left > 1.0 || r.right > 1.0 ||
                           r.scrollUp > 1.0 || r.scrollDown > 1.0)
    ensures res.Ok? ==> res.value.scrollX == 0.0
  {
    var cu, cd, cl, cr := Contribution(m, r.up, cfg), Contribution(m, r.down, cfg),
                          Contribution(m, r.left, cfg), Contribution(m, r.right, cfg);
    var csu, csd := Contribution(m, r.scrollUp, cfg), Contribution(m, r.scrollDown, cfg);
    if cu.Err? then Err(cu.error) else if cd.Err? then Err(cd.error)
    else if cl.Err? then Err(cl.error) else if cr.Err? then Err(cr.error)
    else if csu.Err? then Err(csu.error) else if csd.Err? then Err(csd.error)
    else Ok(Motion((cr.value - cl.value) * cfg.sensitivityM,
                   (cd.value - cu.value) * cfg.sensitivityM,
                   0.0,
                   (csu.value - csd.value) * cfg.sensitivityS))
  }

  /** The calls of one pass: mouse.move(dx, dy) when dx or dy is nonzero, then
      mouse.scroll(0, scroll) when scroll is nonzero. */
  function TickResult(m: Math, cfg: Config, r: Readings): Result<seq<Event>> {
    match TickMotion(m, cfg, r)
    case Err(e) => Err(e)
    case Ok(mo) => Ok(Dispatch(mo))
  }

  /** One `if value > deadzone:` guard: process_input is called only above the
      deadzone, and a reading at or below it leaves the accumulator as it is. */
  method Guarded(m: Math, raw: real, cfg: Config) returns (c: Result<real>)
    ensures c == Contribution(m, raw, cfg)
  {
    c := Ok(0.0);
    if raw > cfg.deadzone {
      c := Legacy.ProcessInput(m, raw, cfg.deadzone, cfg.curveFactor);
    }
  }

  /** The loop body after the reads: six guarded updates, then the guarded calls. */
  method Tick(m: Math, cfg: Config, r: Readings) returns (res: Result<seq<Event>>)
    ensures res == TickResult(m, cfg, r)
  {
    var sm, ss := cfg.sensitivityM, cfg.sensitivityS;
    var dx, dy, scroll := 0.0, 0.0, 0.0;
    var pu := Guarded(m, r.up, cfg);
    if pu.Err? { return Err(pu.error); }
    dy := dy - pu.value * sm;
    var pd := Guarded(m, r.down, cfg);
    if pd.Err? { return Err(pd.error); }
    dy := dy + pd.value * sm;
    var pl := Guarded(m, r.left, cfg);
    if pl.Err? { return Err(pl.error); }
    dx := dx - pl.value * sm;
    var pr := Guarded(m, r.right, cfg);
    if pr.Err? { return Err(pr.error); }
    dx := dx + pr.value * sm;
    var psu := Guarded(m, r.scrollUp, cfg);
    if psu.Err? { return Err(psu.error); }
    scroll := scroll + psu.value * ss;
    var psd := Guarded(m, r.scrollDown, cfg);
    if psd.Err? { return Err(psd.error); }
    scroll := scroll - psd.value * ss;

    assert dy == (pd.value - pu.value) * sm;
    assert dx == (pr.value - pl.value) * sm;
    assert scroll == (psu.value - psd.value) * ss;
    assert TickMotion(m, cfg, r).Ok?;
    assert TickMotion(m, cfg, r).value.dx == dx;
    assert TickMotion(m, cfg, r).value.dy == dy;
    assert TickMotion(m, cfg, r).value.scrollY == scroll;
    assert TickMotion(m, cfg, r) == Ok(Motion(dx, dy, 0.0, scroll));
    var events := [];
    if dx != 0.0 || dy != 0.0 {
      events := events + [Move(dx, dy)];
    }
    if scroll != 0.0 {
      events := events + [Scroll(0.0, scroll)];
    }
    assert events == Dispatch(Motion(dx, dy, 0.0, scroll));
    return Ok(events);
  }

  /** A pass whose six readings are all at or below the deadzone makes no call. */
  lemma IdleTickDispatchesNothing(m: Math, cfg: Config, r: Readings)
    requires r.up <= cfg.deadzone && r.down <= cfg.deadzone && r.left <= cfg.deadzone && r.right <= cfg.deadzone
    requires r.scrollUp <= cfg.deadzone && r.scrollDown <= cfg.deadzone
    ensures TickResult(m, cfg, r) == Ok([])
  {
    IdleDispatchesNothing(cfg.sensitivityM, cfg.sensitivityS, 0.0);
  }

  /** Every call carries a nonzero vector, every scroll is vertical, and a
      pass scrolls at most once after moving at most once. */
  lemma TickCallsWellFormed(m: Math, cfg: Config, r: Readings)
    ensures var t := TickResult(m, cfg, r);
            t.Ok? ==> AllNonZero(t.value) && |t.value| <= 2 &&
                      forall e :: e in t.value && e.Scroll? ==> e.dx == 0.0
  {
    var mo := TickMotion(m, cfg, r);
    if mo.Ok? {
      DispatchNonZero(mo.value);
    }
  }

  /** The passes of the loop, tick by tick. */
  function Passes(m: Math, cfg: Config, l: Layout, sdk: Legacy.Sdk): nat -> Result<seq<Event>> {
    (tick: nat) => TickResult(m, cfg, ReadTick(sdk, tick, l))
  }

  /** The trace after at most n passes of the loop. */
  function RunTrace(m: Math, cfg: Config, l: Layout, sdk: Legacy.Sdk, n: nat): Trace {
    TraceOf(Passes(m, cfg, l, sdk), n)
  }

  /** run_woot_rat(...) for `ticks` passes of `while mouse_active`; with
      mouse_active false the loop never runs. */
  function RunResult(m: Math, cfg: Config, mouseActive: bool, keyMapping: Value, sdk: Legacy.Sdk, ticks: nat): Trace {
    if !mouseActive then Trace([], None)
    else RunTrace(m, cfg, SelectLayout(keyMapping), sdk, ticks)
  }

  method RunWootRat(m: Math, cfg: Config, mouseActive: bool, keyMapping: Value, sdk: Legacy.Sdk, ticks: nat)
    returns (trace: Trace)
    ensures trace == RunResult(m, cfg, mouseActive, keyMapping, sdk, ticks)
    ensures AllNonZero(trace.events)
  {
    var l := SelectLayout(keyMapping);
    if !mouseActive {
      return Trace([], None);
    }
    trace := Poll(m, cfg, l, sdk, ticks);
  }

  /** The `while mouse_active` loop, for at most `ticks` passes. */
  method Poll(m: Math, cfg: Config, l: Layout, sdk: Legacy.Sdk, ticks: nat) returns (trace: Trace)
    ensures trace == RunTrace(m, cfg, l, sdk, ticks)
    ensures AllNonZero(trace.events)
  {
    var events: seq<Event> := [];
    var tick := 0;
    while tick < ticks
      invariant 0 <= tick <= ticks
      invariant RunTrace(m, cfg, l, sdk, tick) == Trace(events, None)
      invariant AllNonZero(events)
    {
      var readings := ReadTick(sdk, tick, l);
      var res := Tick(m, cfg, readings);
      assert res == Passes(m, cfg, l, sdk)(tick);
      TraceStep(Passes(m, cfg, l, sdk), tick);
      if res.Err? {
        CrashIsFinal(Passes(m, cfg, l, sdk), tick + 1, ticks);
        return Trace(events, Some(res.error));
      }
      TickCallsWellFormed(m, cfg, readings);
      events := events + res.value;
      tick := tick + 1;
    }
    return Trace(events, None);
  }

  /** A pass whose readings never pass full travel does not raise, whatever
      the deadzone: the guard keeps process_input's division from being reached. */
  lemma TickWithinFullTravel(m: Math, cfg: Config, r: Readings)
    requires cfg.curveFactor >= 0.0
    requires r.up <= 1.0 && r.down <= 1.0 && r.left <= 1.0 && r.right <= 1.0
    requires r.scrollUp <= 1.0 && r.scrollDown <= 1.0
    ensures TickResult(m, cfg, r).Ok?
  {
    assert TickMotion(m, cfg, r).Ok?;
  }

  /** Readings that never pass full travel never end the thread, which then
      makes the calls of every pass. */
  lemma NoCrashWithinFullTravel(m: Math, cfg: Config, l: Layout, sdk: Legacy.Sdk, n: nat)
    requires cfg.curveFactor >= 0.0
    requires forall tick, key :: 0 <= tick < n ==> sdk(tick, key) <= 1.0
    ensures RunTrace(m, cfg, l, sdk, n).error.None?
    ensures RunTrace(m, cfg, l, sdk, n).events ==
              Calls((tick: nat) => var t := TickResult(m, cfg, ReadTick(sdk, tick, l)); if t.Ok? then t.value else [], n)
  {
    var calls := (tick: nat) => var t := TickResult(m, cfg, ReadTick(sdk, tick, l)); if t.Ok? then t.value else [];
    forall tick | 0 <= tick < n
      ensures Passes(m, cfg, l, sdk)(tick) == Ok(calls(tick))
    {
      var r := ReadTick(sdk, tick, l);
      assert r.up <= 1.0 && r.down <= 1.0 && r.left <= 1.0 && r.right <= 1.0;
      assert r.scrollUp <= 1.0 && r.scrollDown <= 1.0;
      TickWithinFullTravel(m, cfg, r);
    }
    NoRaiseNoCrash(Passes(m, cfg, l, sdk), calls, n);
  }
}
