/** What one poll of the eight analog channels turns into: the per-channel
    values, the combined motion vector, and the calls made on the mouse
    controller (recorded as events instead of being performed). */
module Pointer {
  import opened Common

  /** One value per logical channel, in the order of the direction labels:
      up, down, left, right, scroll up, scroll down, scroll left, scroll right. */
  datatype Channels<T> = Channels(up: T, down: T, left: T, right: T,
                                  scrollUp: T, scrollDown: T, scrollLeft: T, scrollRight: T)

  /** The (dx, dy, scroll_x, scroll_y) a tick accumulates. */
  datatype Motion = Motion(dx: real, dy: real, scrollX: real, scrollY: real)

  /** A call made on the mouse controller: mouse.move(dx, dy) or mouse.scroll(dx, dy). */
  datatype Event = Move(dx: real, dy: real) | Scroll(dx: real, dy: real)

  /** The motion the engine's and the second generation's loops compute from
      the eight processed values: opposing channels subtract, movement scales
      by the mouse sensitivity, vertical movement further by (1 - yAdjustment),
      scrolling by the scroll sensitivity. */
  function Combine(p: Channels<real>, sensitivityM: real, sensitivityS: real, yAdjustment: real): Motion {
    Motion((p.right - p.left) * sensitivityM,
           (p.down - p.up) * sensitivityM * (1.0 - yAdjustment),
           (p.scrollLeft - p.scrollRight) * sensitivityS,
           (p.scrollUp - p.scrollDown) * sensitivityS)
  }

  /** The calls a tick makes: move only for a nonzero movement vector, scroll
      only for a nonzero scroll vector, move before scroll. */
  function Dispatch(m: Motion): (evs: seq<Event>)
    ensures Move(m.dx, m.dy) in evs <==> m.dx != 0.0 || m.dy != 0.0
    ensures Scroll(m.scrollX, m.scrollY) in evs <==> m.scrollX != 0.0 || m.scrollY != 0.0
    ensures forall e :: e in evs ==> e == Move(m.dx, m.dy) || e == Scroll(m.scrollX, m.scrollY)
    ensures |evs| <= 2 && (|evs| == 2 ==> evs[0].Move? && evs[1].Scroll?)
  {
    (if m.dx != 0.0 || m.dy != 0.0 then [Move(m.dx, m.dy)] else []) +
    (if m.scrollX != 0.0 || m.scrollY != 0.0 then [Scroll(m.scrollX, m.scrollY)] else [])
  }

  /** The eight processed values, or the first exception raised, in the order
      the loop bodies evaluate them: up, down, left, right, scroll left,
      scroll right, scroll up, scroll down. */
  function ProcessAll(f: real -> Result<real>, r: Channels<real>): (res: Result<Channels<real>>)
    ensures res.Ok? <==> f(r.up).Ok? && f(r.down).Ok? && f(r.left).Ok? && f(r.right).Ok? &&
                         f(r.scrollUp).Ok? && f(r.scrollDown).Ok? && f(r.scrollLeft).Ok? && f(r.scrollRight).Ok?
    ensures res.Ok? ==> res.value == Channels(f(r.up).value, f(r.down).value, f(r.left).value, f(r.right).value,
                                              f(r.scrollUp).value, f(r.scrollDown).value,
                                              f(r.scrollLeft).value, f(r.scrollRight).value)
  {
    var pu, pd, pl, pr := f(r.up), f(r.down), f(r.left), f(r.right);
    var psl, psr, psu, psd := f(r.scrollLeft), f(r.scrollRight), f(r.scrollUp), f(r.scrollDown);
    if pu.Err? then Err(pu.error) else if pd.Err? then Err(pd.error)
    else if pl.Err? then Err(pl.error) else if pr.Err? then Err(pr.error)
    else if psl.Err? then Err(psl.error) else if psr.Err? then Err(psr.error)
    else if psu.Err? then Err(psu.error) else if psd.Err? then Err(psd.error)
    else Ok(Channels(pu.value, pd.value, pl.value, pr.value, psu.value, psd.value, psl.value, psr.value))
  }

  /** The calls one tick makes from its eight readings, processed by f, or
      the exception that aborts it before any call. */
  function TickMotion(f: real -> Result<real>, r: Channels<real>,
                      sensitivityM: real, sensitivityS: real, yAdjustment: real): Result<seq<Event>> {
    match ProcessAll(f, r)
    case Err(e) => Err(e)
    case Ok(p) => Ok(Dispatch(Combine(p, sensitivityM, sensitivityS, yAdjustment)))
  }

  /** The body of the engine's and the second generation's loops after the
      reads: the accumulators updated one channel at a time, then the guarded
      calls on the mouse. */
  method Accumulate(f: real -> Result<real>, r: Channels<real>,
                    sensitivityM: real, sensitivityS: real, yAdjustment: real) returns (res: Result<seq<Event>>)
    ensures res == TickMotion(f, r, sensitivityM, sensitivityS, yAdjustment)
  {
    var sm, ss, yk := sensitivityM, sensitivityS, 1.0 - yAdjustment;
    var dx, dy, scrX, scrY := 0.0, 0.0, 0.0, 0.0;
    var pu := f(r.up);
    if pu.Err? { return Err(pu.error); }
    dy := dy - pu.value * sm * yk;
    var pd := f(r.down);
    if pd.Err? { return Err(pd.error); }
    dy := dy + pd.value * sm * yk;
    var pl := f(r.left);
    if pl.Err? { return Err(pl.error); }
    dx := dx - pl.value * sm;
    var pr := f(r.right);
    if pr.Err? { return Err(pr.error); }
    dx := dx + pr.value * sm;

    var psl := f(r.scrollLeft);
    if psl.Err? { return Err(psl.error); }
    scrX := scrX + psl.value * ss;
    var psr := f(r.scrollRight);
    if psr.Err? { return Err(psr.error); }
    scrX := scrX - psr.value * ss;
    var psu := f(r.scrollUp);
    if psu.Err? { return Err(psu.error); }
    scrY := scrY + psu.value * ss;
    var psd := f(r.scrollDown);
    if psd.Err? { return Err(psd.error); }
    scrY := scrY - psd.value * ss;

    var p := Channels(pu.value, pd.value, pl.value, pr.value, psu.value, psd.value, psl.value, psr.value);
    assert ProcessAll(f, r) == Ok(p);
    AccumulatedMotion(p, sm, ss, yk);
    assert Motion(dx, dy, scrX, scrY) == Combine(p, sensitivityM, sensitivityS, yAdjustment);
    var events := [];
    if dx != 0.0 || dy != 0.0 {
      events := events + [Move(dx, dy)];
    }
    if scrX != 0.0 || scrY != 0.0 {
      events := events + [Scroll(scrX, scrY)];
    }
    assert events == Dispatch(Motion(dx, dy, scrX, scrY));
    return Ok(events);
  }

  /** The step-by-step accumulation equals the combined motion. */
  lemma AccumulatedMotion(p: Channels<real>, sm: real, ss: real, yk: real)
    ensures 0.0 - p.up * sm * yk + p.down * sm * yk == (p.down - p.up) * sm * yk
    ensures 0.0 - p.left * sm + p.right * sm == (p.right - p.left) * sm
    ensures 0.0 + p.scrollLeft * ss - p.scrollRight * ss == (p.scrollLeft - p.scrollRight) * ss
    ensures 0.0 + p.scrollUp * ss - p.scrollDown * ss == (p.scrollUp - p.scrollDown) * ss
  {
  }

  /** Every recorded call carries a nonzero vector. */
  predicate AllNonZero(evs: seq<Event>) {
    forall i :: 0 <= i < |evs| ==> evs[i].dx != 0.0 || evs[i].dy != 0.0
  }

  lemma AppendNonZero(a: seq<Event>, b: seq<Event>)
    requires AllNonZero(a) && AllNonZero(b)
    ensures AllNonZero(a + b)
  {
    forall i | 0 <= i < |a + b| ensures (a + b)[i].dx != 0.0 || (a + b)[i].dy != 0.0 {
      if i >= |a| {
        assert (a + b)[i] == b[i - |a|];
      }
    }
  }

  lemma DispatchNonZero(m: Motion)
    ensures AllNonZero(Dispatch(m))
  {
    forall i | 0 <= i < |Dispatch(m)| ensures Dispatch(m)[i].dx != 0.0 || Dispatch(m)[i].dy != 0.0 {
      assert Dispatch(m)[i] in Dispatch(m);
    }
  }

  /** Equal opposing values cancel: equal up and down give dy == 0, equal left
      and right dx == 0, and likewise for both scroll axes. */
  lemma CombineCancels(p: Channels<real>, sensitivityM: real, sensitivityS: real, yAdjustment: real)
    ensures var m := Combine(p, sensitivityM, sensitivityS, yAdjustment);
      (p.up == p.down ==> m.dy == 0.0) && (p.left == p.right ==> m.dx == 0.0) &&
      (p.scrollLeft == p.scrollRight ==> m.scrollX == 0.0) &&
      (p.scrollUp == p.scrollDown ==> m.scrollY == 0.0)
  {
  }

  /** Swapping the values of two opposing channels reverses that component. */
  lemma CombineAntisymmetric(p: Channels<real>, sensitivityM: real, sensitivityS: real, yAdjustment: real)
    ensures var m := Combine(p, sensitivityM, sensitivityS, yAdjustment);
            var q := Combine(p.(up := p.down, down := p.up, left := p.right, right := p.left,
                                scrollUp := p.scrollDown, scrollDown := p.scrollUp,
                                scrollLeft := p.scrollRight, scrollRight := p.scrollLeft),
                             sensitivityM, sensitivityS, yAdjustment);
      q == Motion(-m.dx, -m.dy, -m.scrollX, -m.scrollY)
  {
  }

  /** Pairwise equal readings make no call, whatever the curve: either some
      channel raises, or opposing values cancel on all four axes. */
  lemma BalancedReadingsMakeNoCall(f: real -> Result<real>, r: Channels<real>,
                                   sensitivityM: real, sensitivityS: real, yAdjustment: real)
    requires r.up == r.down && r.left == r.right && r.scrollUp == r.scrollDown && r.scrollLeft == r.scrollRight
    ensures var res := TickMotion(f, r, sensitivityM, sensitivityS, yAdjustment);
            res.Ok? ==> res.value == []
  {
    var p := ProcessAll(f, r);
    if p.Ok? {
      CombineCancels(p.value, sensitivityM, sensitivityS, yAdjustment);
    }
  }

  /** All channels at zero produce no call at all. */
  lemma IdleDispatchesNothing(sensitivityM: real, sensitivityS: real, yAdjustment: real)
    ensures Dispatch(Combine(Channels(0.0, 0.0, 0.0, 0.0, 0.0, 0.0, 0.0, 0.0),
                             sensitivityM, sensitivityS, yAdjustment)) == []
  {
  }

  /** The calls made by n passes of a loop that catches every exception, when
      pass t makes the calls pass(t). */
  function Calls(pass: nat -> seq<Event>, n: nat): seq<Event> {
    if n == 0 then [] else Calls(pass, n - 1) + pass(n - 1)
  }

  /** One more pass of the loop. */
  lemma CallsStep(pass: nat -> seq<Event>, n: nat)
    ensures Calls(pass, n + 1) == Calls(pass, n) + pass(n)
  {
  }

  /** A loop whose every pass makes no call makes no call at all. */
  lemma {:induction false} QuietPassesMakeNoCalls(pass: nat -> seq<Event>, n: nat)
    requires forall t :: 0 <= t < n ==> pass(t) == []
    ensures Calls(pass, n) == []
  {
    if n > 0 {
      QuietPassesMakeNoCalls(pass, n - 1);
    }
  }

  /** What a thread whose exceptions are not caught has done: the calls it
      made, and the exception that ended it, if one did. */
  datatype Trace = Trace(events: seq<Event>, error: Option<Error>)

  /** The trace after at most n passes of such a loop, when pass t makes the
      calls or raises the exception pass(t): the first pass that raises ends
      the thread before making any call. */
  function TraceOf(pass: nat -> Result<seq<Event>>, n: nat): Trace {
    if n == 0 then Trace([], None)
    else
      var prev := TraceOf(pass, n - 1);
      if prev.error.Some? then prev
      else if pass(n - 1).Ok? then Trace(prev.events + pass(n - 1).value, None)
      else Trace(prev.events, Some(pass(n - 1).error))
  }

  /** One more pass of a thread still alive. */
  lemma TraceStep(pass: nat -> Result<seq<Event>>, n: nat)
    requires TraceOf(pass, n).error.None?
    ensures TraceOf(pass, n + 1) ==
              if pass(n).Ok? then Trace(TraceOf(pass, n).events + pass(n).value, None)
              else Trace(TraceOf(pass, n).events, Some(pass(n).error))
  {
  }

  /** Once an exception has ended the thread, later passes change nothing. */
  lemma {:induction false} CrashIsFinal(pass: nat -> Result<seq<Event>>, n: nat, k: nat)
    requires n <= k
    requires TraceOf(pass, n).error.Some?
    ensures TraceOf(pass, k) == TraceOf(pass, n)
    decreases k - n
  {
    if n < k {
      CrashIsFinal(pass, n, k - 1);
    }
  }

  /** A loop none of whose passes raises is never ended, and then it makes
      exactly the calls of the same loop with its exceptions caught. */
  lemma {:induction false} NoRaiseNoCrash(pass: nat -> Result<seq<Event>>, calls: nat -> seq<Event>, n: nat)
    requires forall t :: 0 <= t < n ==> pass(t) == Ok(calls(t))
    ensures TraceOf(pass, n) == Trace(Calls(calls, n), None)
  {
    if n > 0 {
      NoRaiseNoCrash(pass, calls, n - 1);
      assert pass(n - 1) == Ok(calls(n - 1));
    }
  }
}
