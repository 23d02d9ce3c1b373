# WootRat core in Dafny

WootRat turns the analog key depth reported by a Wooting keyboard into mouse-pointer
movement and scroll-wheel input: eight keys (up, down, left, right and four scroll
directions) are polled, each depth goes through a response curve, opposing keys
are subtracted, the result is scaled by a sensitivity and handed to the mouse
controller. This project models that core in three generations, plus the
key-mapping and settings logic around it:

- `curve_engine.dfy` (`CurveEngine`): `WootRatEngine.process_input`, which
  validates its parameters, gates on an inner deadzone, saturates past an
  outer deadzone, normalises and clamps, and applies one of four curve shapes
  (power, log, s_curve, linear).
- `pointer.dfy` (`Pointer`): the per-tick combination of eight processed
  values into `(dx, dy, scroll_x, scroll_y)` and the rule for when `move` and
  `scroll` are called. Both the engine and the second generation use it.
  It also defines what a polling loop does over many passes: `Calls` for a loop
  that catches every exception, and `TraceOf` for one whose first exception
  ends the thread.
- `engine_loop.dfy` (`EngineLoop`): `WootRatEngine.run`. This covers the start-up checks,
  the translation of key names through `KEYCODES`, the eight direction
  labels, and the polling loop. Errors inside a tick are caught there.
- `legacy.dfy` (`Legacy`): `logic/woot_rat.py`. It has a power curve with an inner
  deadzone only, a three-layout key table with a fallback, and a loop whose
  first exception ends the thread.
- `classic.dfy` (`Classic`): `WootRat.py`. It has a six-key `match` layout,
  readings counted only strictly above the deadzone, and no y adjustment. Scrolling
  is vertical only.
- `keycodes.dfy` (`KeyCodes`): `KEYCODES` as an ordered table, the forward
  lookup, the first-match reverse lookup, and the string/non-string translation.
- `thread_manager.dfy` (`ThreadManager`): `assemble_key_mapping_from_settings`
  with its all-or-nothing fallback to the defaults.
- `keymap_tab.dfy` (`KeymapTab`): the loop in `KeyMappingTab.__init__` that
  fills `key_mapping_dropdowns`. The class `KeyMappingTab` holds that
  dictionary as a field.
- `settings.dfy` (`Settings`): `default_settings` and the default-key merge of
  `load_settings`.
- `common.dfy` (`Common`): the `Option`/`Result` wrappers, the loosely typed
  `Value` of a JSON dictionary, one `Error` constructor per raising site, and
  `Math`, the record of `pow`, `log1p` and `exp`.

Modelling choices:

- Numbers are Dafny `real`s.
- `pow`, `log1p` and `exp` are function values inside `Math`, so nothing is
  assumed about them. A lemma that needs a property of them states it as a
  precondition, for example `pow(0, cf) == 0`.
- Python exceptions are `Err` results. A float division by zero, and the
  built-in `pow` of a zero base to a negative power, are `Err(ZeroDivision)`.
- The SDK read is an injected function of the tick number and the key.
- The mouse controller is replaced by the sequence of calls made on it
  (`Move(dx, dy)`, `Scroll(dx, dy)`).
- A loop that runs until it is stopped is run for a given number of ticks.
- `KEYCODES` and `DIRECTION_LABELS` are parameters: a sequence of
  `(name, code)` pairs in dictionary iteration order, and a sequence of labels.

Where the code and its own docstrings part, the model follows the code:

- The docstring of `WootRatEngine.process_input`
  (src/logic/woot_rat_engine.py:51-64) lists four curve types. The code raises
  `ValueError` for any other type only for a raw value inside the active band
  (`CurveEngine.OutOfBandIgnoresCurve`). The engine loop catches that error on
  every tick, so an engine with an unknown curve type never moves the pointer
  while a key is in its active band. It still saturates at full travel.
- The same docstring documents the parameter ranges. The code checks them on
  every call, with a `ValueError` that the loop catches, so `run` itself never
  reports invalid parameters (`EngineLoop.InvalidParametersNeverDispatch`).
- The docstring promises a processed value from 0.0 to 1.0. The S-curve
  (src/logic/woot_rat_engine.py:85-87) is not renormalised: it gives values
  strictly inside (0, 1) at both ends of the band, and exactly 1 only past the
  outer deadzone (`CurveEngine.SCurveNotRenormalised`).

Observations the proofs make explicit:

- In `WootRat.py` the `if current_scroll_up and current_scroll_down` test is
  always true, because every layout binds F17/F18 (`Classic.ScrollKeysAlwaysRead`).
- `utils/settings.py` defines `default_settings` with six setting
  names only. Unless the first direction label is one of them, the fallback of
  `assemble_key_mapping_from_settings` itself raises `KeyError`
  (`ThreadManager.FallbackToShippedDefaultsRaises`).

## Model

| member | source | states |
|---|---|---|
| KeyCodes.CodeOf | src/logic/woot_rat_engine.py:114 | `KEYCODES[name]` succeeds exactly when some entry carries the name, and the code it yields is that entry's code |
| KeyCodes.NameOf | src/gui/keymap_tab.py:15 | the reverse lookup finds a name exactly when some entry has the code, and the name is that of the first such entry in iteration order |
| KeyCodes.NameOfThenCodeOf | src/gui/keymap_tab.py:15 | in a table with distinct names, the name found for a code translates back to that same code |
| KeyCodes.CodeOfThenNameOf | src/gui/keymap_tab.py:15 | every code a name translates to is found again by the reverse lookup |
| KeyCodes.Resolve | src/utils/thread_manager.py:18 | a string is translated exactly when `KEYCODES` holds it, into an integer code taken from the table; any other value is kept unchanged |
| Pointer.Dispatch | src/logic/woot_rat_engine.py:160-163 | `move` is called exactly when dx or dy is nonzero, `scroll` exactly when scroll_x or scroll_y is nonzero, nothing else is called, and a move comes before a scroll |
| Pointer.ProcessAll | src/logic/woot_rat_engine.py:148-157 | the eight channel values succeed together or the tick raises; on success they are exactly the curve applied to each reading |
| Pointer.Accumulate | src/logic/woot_rat_engine.py:133-163 | the step-by-step `+=`/`-=` accumulation and the guarded calls give exactly dy = (P(down)-P(up))·sm·(1-y_adj), dx = (P(right)-P(left))·sm, scr_x = (P(scrl_left)-P(scrl_right))·ss, scr_y = (P(scrl_up)-P(scrl_down))·ss, dispatched as `Dispatch`, or else the first exception raised in channel order |
| Pointer.DispatchNonZero | src/logic/woot_rat_engine.py:160-163 | every recorded call carries a nonzero vector |
| Pointer.CombineCancels | src/logic/woot_rat_engine.py:148-157 | equal opposing values cancel on each of the four axes |
| Pointer.CombineAntisymmetric | src/logic/woot_rat_engine.py:148-157 | swapping the values of each pair of opposing channels negates the whole motion |
| Pointer.IdleDispatchesNothing | src/logic/woot_rat_engine.py:160-163 | all channels at zero make no call at all |
| Pointer.BalancedReadingsMakeNoCall | src/logic/woot_rat_engine.py:147-163 | pairwise equal opposing readings make no call whatever the curve, unless a channel raises |
| Pointer.QuietPassesMakeNoCalls | src/logic/woot_rat_engine.py:131-168 | a loop that catches its exceptions and makes no call in any pass makes no call at all |
| Pointer.CrashIsFinal | src/logic/woot_rat.py:68-99 | in a loop whose exceptions are not caught, once one has ended the thread later passes change nothing |
| Pointer.NoRaiseNoCrash | src/logic/woot_rat.py:68-99 | a loop none of whose passes raises is never ended, and makes exactly the calls it would make with its exceptions caught |
| CurveEngine.ProcessInput | src/logic/woot_rat_engine.py:65-91 | the two `ValueError`s for the parameters happen exactly when not 0 ≤ deadzone < outer_deadzone ≤ 1 or curve_factor ≤ 0, whatever raw is; with valid parameters raw below the deadzone gives exactly 0 and raw above the outer deadzone exactly 1; an unknown curve type raises exactly when the parameters are valid and raw lies in the band; the linear curve stays in [0, 1] |
| CurveEngine.ClampIsNoOpInBand | src/logic/woot_rat_engine.py:76-77 | for deadzone ≤ raw ≤ outer_deadzone the quotient already lies in [0, 1], so the clamp leaves it unchanged |
| CurveEngine.BandEnds | src/logic/woot_rat_engine.py:76-77 | the deadzone normalises to exactly 0 and the outer deadzone to exactly 1 |
| CurveEngine.ParametersCheckedFirst | src/logic/woot_rat_engine.py:65-73 | with invalid parameters the outcome is the same for every raw value, curve type and curve function |
| CurveEngine.OutOfBandIgnoresCurve | src/logic/woot_rat_engine.py:70-91 | outside the band the result is 0 or 1 whatever the curve type (an unknown one included) and whatever the curve functions are |
| CurveEngine.LinearIsNormalised | src/logic/woot_rat_engine.py:76-89 | inside the band the linear curve returns (raw - deadzone) / (outer_deadzone - deadzone) exactly |
| CurveEngine.LinearEndpoints | src/logic/woot_rat_engine.py:76-89 | the linear curve is 0 at the deadzone and 1 at the outer deadzone |
| CurveEngine.PowerEndpoints | src/logic/woot_rat_engine.py:76-81 | the power curve is 0 at the deadzone and 1 at the outer deadzone, given pow(0, cf) = 0 and pow(1, cf) = 1 |
| CurveEngine.PowerFactorOneIsLinear | src/logic/woot_rat_engine.py:80-89 | with curve factor 1 the power curve equals the linear curve for every input, given pow(t, 1) = t on [0, 1] |
| CurveEngine.LogEndpoints | src/logic/woot_rat_engine.py:82-84 | the log curve is 0 at the deadzone and 1 at the outer deadzone, given log1p(0) = 0 and log1p(cf) ≠ 0 |
| CurveEngine.SCurveNotRenormalised | src/logic/woot_rat_engine.py:72-87 | for a positive exp the S-curve lies strictly inside (0, 1) at both ends of the band but is exactly 1 past the outer deadzone, so the output jumps at both band edges |
| CurveEngine.LinearWellBehaved | src/logic/woot_rat_engine.py:88-89 | the linear shape never raises on [0, 1], stays in [0, 1] and is monotone |
| CurveEngine.ProcessInputMonotone | src/logic/woot_rat_engine.py:70-91 | with valid parameters and a well-behaved shape, deeper travel never gives a smaller output |
| CurveEngine.PowerScenario | src/logic/woot_rat_engine.py:76-81 | deadzone 0.1, outer deadzone 1, factor 2, power curve: raw 0.55 gives 0.25 (given 0.5² = 0.25) and raw 0.05 gives 0 |
| EngineLoop.TranslateKeys | src/logic/woot_rat_engine.py:113-116 | the keys comprehension succeeds exactly when every string in the mapping is a `KEYCODES` name; it keeps the mapping's keys and translates each value as `Resolve` does |
| EngineLoop.FirstMissing | src/logic/woot_rat_engine.py:119-129 | finds no label exactly when all labels are present; otherwise it finds the first absent label in order |
| EngineLoop.FirstMissingOnlyKeys | src/logic/woot_rat_engine.py:119-129 | which label is found missing depends only on which keys the dictionary holds, so translating its values does not change it |
| EngineLoop.ResolveKeys | src/logic/woot_rat_engine.py:113-129 | a `None` mapping raises `AttributeError`, an unknown key name `KeyError`, and a mapping whose names all resolve but which lacks a direction label the re-raised `KeyError` naming the first absent label in label order; it succeeds exactly when none of these holds, with each channel the translated key of its label |
| EngineLoop.ReadChannels | src/logic/woot_rat_engine.py:136-145 | the eight reads give all eight readings, or nothing as soon as one read raises |
| EngineLoop.Tick | src/logic/woot_rat_engine.py:132-166 | one loop pass makes exactly the calls of `TickEvents`, and none when a read or a `process_input` raises (the exception is caught) |
| EngineLoop.Run | src/logic/woot_rat_engine.py:109-168 | `run` raises exactly when stop_event is `None` or the key set-up fails; otherwise `ticks` passes make exactly the calls of `Events`, each with a nonzero vector |
| EngineLoop.Poll | src/logic/woot_rat_engine.py:131-168 | `ticks` passes of the loop make exactly the calls of `Events`, the calls of each tick in turn, each with a nonzero vector |
| EngineLoop.TickNonZero | src/logic/woot_rat_engine.py:160-163 | every call a tick makes carries a nonzero vector |
| EngineLoop.IdleTickDispatchesNothing | src/logic/woot_rat_engine.py:147-163 | for any parameters, valid or not, a tick whose eight readings all lie below the deadzone makes no call |
| EngineLoop.BalancedTickDispatchesNothing | src/logic/woot_rat_engine.py:147-163 | a tick whose opposing readings are pairwise equal, all eight at 0 included, makes no call, whatever the deadzone, curve type and curve functions |
| EngineLoop.DefaultsNeverRaise | src/logic/woot_rat_engine.py:93 | with `run`'s default parameters `process_input` never raises, so a tick whose reads succeed makes exactly the calls of its combined motion |
| EngineLoop.OpposingPressesCancel | src/logic/woot_rat_engine.py:148-151 | with up as deep as down and left as deep as right, a tick never moves the pointer, whatever the parameters |
| EngineLoop.InvalidParametersNeverDispatch | src/logic/woot_rat_engine.py:131-166 | with invalid curve parameters every tick raises, the loop keeps running, and the mouse is never called |
| EngineLoop.IdleTickReadsNothing | src/logic/woot_rat_engine.py:131-166 | a tick whose eight keys are idle (the read fails, or lies below the deadzone) makes no call, for any parameters |
| EngineLoop.IdleRunDispatchesNothing | src/logic/woot_rat_engine.py:131-168 | if every key is idle at every tick, the whole run makes no call, for any parameters |
| EngineLoop.FullYAdjustmentStopsVerticalMotion | src/logic/woot_rat_engine.py:148-149 | a y adjustment of 1 means no move ever has a vertical component |
| Legacy.KeyBindings | src/logic/woot_rat.py:59-66 | "Arrow Keys" and "WASD Keys" select their own movement keys; any other value, other names, None and non-strings included, selects up F13, down F15, left F14, right F16; every layout binds F17/F18 to scroll up/down, F19 to scroll right and F20 to scroll left |
| Legacy.ProcessInput | src/logic/woot_rat.py:44-51 | below the deadzone the result is 0; it raises `ZeroDivisionError` exactly when raw ≥ deadzone and either the deadzone is 1 (the division) or raw equals the deadzone and the curve factor is negative (pow of a zero base) |
| Legacy.NormalisedInUnitInterval | src/logic/woot_rat.py:44-51 | for deadzone < 1 and deadzone ≤ raw ≤ 1, excluding a zero base under a negative factor, the curve returns pow of a normalised base that lies in [0, 1], is 0 at the deadzone and is 1 at full travel |
| Legacy.NoOuterCap | src/logic/woot_rat.py:48-51 | for a deadzone in [0, 1), a positive curve factor and travel beyond 1, the normalised base exceeds 1 and the result is pow of that base, with no clamp; the engine's power curve with outer deadzone 1 returns exactly 1 on the same input |
| Legacy.NoParameterValidation | src/logic/woot_rat.py:44-51 | nothing rejects a parameter up front: for a deadzone other than 1 every curve factor, zero or negative included, yields a value away from the deadzone, and at the deadzone exactly the non-negative factors do |
| Legacy.AgreesWithEnginePowerCurve | src/logic/woot_rat.py:44-51 | for parameters the engine accepts and travel up to 1, this curve equals the engine's power curve with outer deadzone 1 |
| Legacy.Poll | src/logic/woot_rat.py:68-99 | the loop yields exactly the trace of `RunTrace`: the calls of each pass, and the first exception, which ends the thread |
| Legacy.RunWootRat | src/logic/woot_rat.py:54-99 | the layout is chosen, a stop_event left at its default `False` raises `AttributeError` before any pass, and otherwise the trace is that of the loop; every call carries a nonzero vector |
| Legacy.TickNonZero | src/logic/woot_rat.py:96-99 | every call of a pass carries a nonzero vector |
| Legacy.Tick | src/logic/woot_rat.py:69-99 | one pass of the loop body makes exactly the calls of `TickResult`, or raises its exception; every call carries a nonzero vector |
| Legacy.TickRaisesOnlyAtFullDeadzone | src/logic/woot_rat.py:48-93 | a pass never raises while the deadzone differs from 1 and the curve factor is not negative, whatever the readings |
| Legacy.NoCrashUnlessFullDeadzone | src/logic/woot_rat.py:48-99 | while the deadzone differs from 1 and the curve factor is not negative the thread never dies, whatever the readings, and makes the calls of every pass |
| Legacy.ZeroBaseEndsThread | src/logic/woot_rat.py:48-51 | with a negative curve factor, a first up reading exactly at the deadzone kills the thread on its first pass with `ZeroDivisionError`, before any call |
| Legacy.DefaultsNeverCrash | src/logic/woot_rat.py:54 | with its default numeric arguments and a stop event, the thread never dies, whatever the layout setting and the readings |
| Legacy.BalancedTickDispatchesNothing | src/logic/woot_rat.py:84-99 | a pass whose opposing readings are pairwise equal, all at 0 included, makes no call unless it raises |
| Classic.SelectLayout | src/WootRat.py:70-98 | each of the three names selects its movement keys; any other value (None and non-strings included) selects the F13-F16 layout; scroll keys are always F17/F18, so both codes are nonzero |
| Classic.LayoutsMatchSecondGeneration | src/WootRat.py:70-98 | for every setting, names, None and non-strings alike, both generations bind the same movement and vertical scroll keys |
| Classic.ScrollKeysAlwaysRead | src/WootRat.py:112-117 | under every selected layout the scroll guard holds, so the scroll keys are always read |
| Classic.Contribution | src/WootRat.py:120-133 | a reading at or below the deadzone contributes 0 without calling `process_input`; it raises exactly when it exceeds a deadzone of 1 |
| Classic.GuardAgreesWithUnguardedCall | src/WootRat.py:58-66 | the guard changes nothing relative to calling `process_input` outright, for deadzone ≠ 1, a non-negative curve factor and pow(0, cf) = 0 |
| Classic.GuardSparesZeroBase | src/WootRat.py:58-66 | where the guard matters: at the deadzone with a negative curve factor, an unguarded `process_input` raises `ZeroDivisionError`, and the guarded reading contributes 0 |
| Classic.TickMotion | src/WootRat.py:119-133 | a pass raises exactly when the deadzone is 1 and some reading exceeds 1; otherwise it never scrolls horizontally |
| Classic.Guarded | src/WootRat.py:120-121 | one `if value > deadzone` guard gives exactly the reading's contribution |
| Classic.Tick | src/WootRat.py:119-141 | the six guarded updates give dx = (P(right)-P(left))·sm, dy = (P(down)-P(up))·sm (no y adjustment) and scroll = (P(scroll_up)-P(scroll_down))·ss; then `move` is called iff dx or dy is nonzero and `scroll(0, scroll)` iff scroll is nonzero |
| Classic.IdleTickDispatchesNothing | src/WootRat.py:119-141 | a pass whose six readings are all at or below the deadzone makes no call |
| Classic.TickCallsWellFormed | src/WootRat.py:135-141 | every call carries a nonzero vector, a pass makes at most two calls, and every scroll is vertical |
| Classic.Poll | src/WootRat.py:100-144 | the loop yields exactly the trace of `RunTrace`, ending at the first exception |
| Classic.RunWootRat | src/WootRat.py:68-144 | with mouse_active false nothing happens; otherwise the trace is that of the loop over the selected layout; every call carries a nonzero vector |
| Classic.TickWithinFullTravel | src/WootRat.py:120-133 | a pass whose six readings do not exceed full travel never raises for a non-negative curve factor, whatever the deadzone |
| Classic.NoCrashWithinFullTravel | src/WootRat.py:100-144 | for a non-negative curve factor, readings that never exceed full travel never end the thread, whatever the deadzone, and it makes the calls of every pass |
| ThreadManager.Entry | src/utils/thread_manager.py:18 | one entry succeeds exactly when the label is present and its setting translates; the `KeyError` names either the missing label or the unknown key name |
| ThreadManager.Comprehension | src/utils/thread_manager.py:17-20 | succeeds exactly when every label's entry does, with exactly one entry per label holding its translation; otherwise it raises the error of the first failing label |
| ThreadManager.AssembleKeyMappingFromSettings | src/utils/thread_manager.py:12-27 | one entry per label; never a mix, since every entry comes from the settings or every entry from the defaults; the settings are used whenever all their labels resolve; the defaults' first `KeyError` propagates exactly when both fail |
| ThreadManager.FallbackToShippedDefaultsRaises | src/utils/thread_manager.py:21-27 | with `default_settings` as shipped and a first label that is not one of its keys, a failing user mapping makes the function raise `KeyError` for that label |
| KeymapTab.KeyNameFor | src/gui/keymap_tab.py:12-19 | it raises exactly when the key list is empty and the saved value is None or an int (`all_keys[0]` is evaluated eagerly). None gives the first key name. An int gives the first name with that code, or else the first key name. Strings and other values are used unchanged |
| KeymapTab.SavedCodeRoundTrips | src/gui/keymap_tab.py:14-15 | a saved key code shown by its name turns back into the same code when the mapping is assembled again |
| KeymapTab.CurrentText | src/gui/keymap_tab.py:12-20 | `setCurrentText(key_name)` succeeds exactly for a saved string, or for None or an int with a nonempty key list, with the text `KeyNameFor` gives; otherwise it raises the `IndexError` of `all_keys[0]` or the `TypeError` of a non-string key name |
| KeymapTab.Dropdowns | src/gui/keymap_tab.py:8-21 | the loop raises exactly when some label's key name or `setCurrentText` raises |
| KeymapTab.DropdownsContents | src/gui/keymap_tab.py:8-21 | when no label raises there is exactly one dropdown per label, keyed by that label, listing every key name and set to that label's key name |
| KeymapTab.DropdownsErrorPersists | src/gui/keymap_tab.py:8-21 | once a label has raised, the labels after it do not change the outcome |
| KeymapTab.NonEmptyKeyListRaisesOnlyForOtherTypes | src/gui/keymap_tab.py:12-20 | with a nonempty key list the loop raises exactly when some label's saved value is none of None, an int and a string |
| KeymapTab.KeyMappingTab.constructor | src/gui/keymap_tab.py:4-21 | `__init__` fills `key_mapping_dropdowns` with exactly the dropdowns of `Dropdowns`, one per label and each listing every key name, or raises that function's error |
| Settings.WithDefaults | src/utils/settings.py:33-36 | the merged keys are the loaded keys plus the default keys; loaded values are kept and missing keys get their default values |
| Settings.MergeDefaults | src/utils/settings.py:34-36 | the in-place loop over the defaults produces exactly `WithDefaults` of the loaded settings |
| Settings.LoadSettings | src/utils/settings.py:26-36 | every default key is present afterwards; loaded values are never overwritten and keys outside the defaults stay; a missing file gives exactly the defaults |
| Settings.DefaultsAreAFixedPoint | src/utils/settings.py:29-36 | merging the defaults into a copy of themselves changes nothing |
| Settings.MergeIsIdempotent | src/utils/settings.py:34-36 | a second merge changes nothing |
| Settings.MergeChangesOnlyWhatIsMissing | src/utils/settings.py:34-36 | the merge changes the dictionary exactly when some default key is missing from it |

## Left out

- SDK loading and initialisation through ctypes, the pynput `Controller`, and
  `time.sleep` are left out; readings are an injected function and mouse
  calls are recorded.
- Thread start, stop, restart and join are left out, and so is the stop
  event's timing. A loop runs for a given number of ticks.
- The Qt widgets are reduced to the items of each dropdown and the text it is
  set to. `QComboBox.setCurrentText` ignores a text that is not among the items;
  the model records the requested text as it is. Its `TypeError` for a
  non-string is modelled.
- The JSON reads and writes of the settings file are left out, including a
  malformed or non-dictionary file and `save_settings`. The loaded dictionary,
  or its absence, is a parameter.
- `default_settings` being left unmutated holds by construction, because Dafny
  maps are values.
- The contents of `KEYCODES`, `DIRECTION_LABELS` and `VALUE_LABELS` are not
  defined in the modelled files, so they are parameters.
- The positional argument wiring that starts a thread, and the duplicate
  `load_settings` of the Qt application, are glue and are not modelled.
- Float arithmetic is modelled over `real`, with no rounding, no NaN and no
  infinities.
- CurveEngine.ApplyCurve: `math.exp` can raise `OverflowError` for a large
  argument, and `math.pow` can raise `ValueError`. The model treats both
  functions as total and uninterpreted.
- Legacy.ProcessInput: for a deadzone above 1 the built-in `pow` of a negative
  base returns a complex number. The model returns `pow`'s value without
  distinguishing that case.
- EngineLoop.ResolveKeys: which unknown key name the `KeyError` carries depends
  on dictionary order, so `UnknownKeyName` has no payload. The requirement of
  exactly eight labels reflects the indexing of `DIRECTION_LABELS[0]` to `[7]`.
  A shorter list, which raises `IndexError`, is not modelled.
- EngineLoop.ResolveKeys: a `key_mapping` that is neither `None` nor a
  dictionary is not modelled.
- EngineLoop.Tick: a `mouse.move` that raises, which would skip the scroll of
  that tick, is not modelled. Mouse calls never fail in the model.
- Legacy.ReadTick and Classic.ReadTick: the ctypes reads of the two older
  generations are total, because both read fixed integer codes from their
  layout tables. The engine reads whatever value the key mapping holds, so
  only the engine models a failing read.
- Classic.Config: holds reals only. `run_woot_rat` in src/WootRat.py:68
  defaults `deadzone`, `curve_factor` and both sensitivities to `None`. A
  `None` deadzone raises `TypeError` at the first `value > deadzone`. A `None`
  curve factor raises at the first reading of any key above the deadzone. A
  `None` `sensitivity_m` raises only at the first movement reading above it,
  and a `None` `sensitivity_s` only at the first scroll reading above it
  (src/WootRat.py:120-133). These calls are not modelled.
- `Value` covers scalars only. A JSON array or object is not modelled. A list
  as `key_mapping` would make `key_bindings.get` raise `TypeError`
  (unhashable) in src/logic/woot_rat.py. A list saved for a key would make
  `setCurrentText` raise.
- Diagnostic output is not modelled. Examples are the `print` of a caught
  tick error at src/logic/woot_rat_engine.py:166 and of a key-mapping error at
  src/utils/thread_manager.py:22. It changes no state that the model
  observes.
- Legacy.ProcessInput, Legacy.NoParameterValidation, Classic.Contribution and
  Classic.TickMotion: the built-in float `pow` raises `OverflowError` when its
  result is too large for a float, for example a strongly negative curve
  factor just above the deadzone. The model's `pow` never fails, so these
  contracts do not list that error.
- Legacy.TickRaisesOnlyAtFullDeadzone, Legacy.NoCrashUnlessFullDeadzone and
  Legacy.DefaultsNeverCrash: nothing caps the readings
  (`Legacy.NoOuterCap`). A reading far past full travel with a large curve
  factor would make `pow` overflow and end the thread, and this is not
  modelled. Readings from 0 to 1 with a non-negative factor give `pow` a base
  and a result in [0, 1] (for a deadzone below 1).
- Classic.TickWithinFullTravel and Classic.NoCrashWithinFullTravel require a
  non-negative curve factor. A negative one can overflow in `pow` just above
  the deadzone, and the model does not capture that.
