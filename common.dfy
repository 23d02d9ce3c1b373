/** Values shared by every part of the model: the loosely typed values that stand
    in the settings and key-mapping dictionaries, the failure wrappers, the
    exceptions the core raises, and the floating-point library functions the
    curves call (kept uninterpreted by passing them in as function values). */
module Common {

  datatype Option<+T> = None | Some(value: T)

  /** The outcome of a Python call that either returns a value or raises. */
  datatype Result<+T> = Ok(value: T) | Err(error: Error)

  /** A scalar value as it can stand in a settings or key-mapping dictionary
      loaded from JSON: a string, an integer, a boolean (a subclass of int in
      Python), a float, or None. JSON arrays and objects are not modelled. */
  datatype Value = Str(s: string) | Int(i: int) | Bool(b: bool) | Float(f: real) | Null

  /** Python's isinstance(v, int), which also holds of booleans. */
  predicate IsInt(v: Value) {
    v.Int? || v.Bool?
  }

  /** The integer an int-like value compares equal to (True == 1, False == 0). */
  function IntOf(v: Value): int
    requires IsInt(v)
  {
    if v.Int? then v.i else if v.b then 1 else 0
  }

  /** The exceptions the core can raise, one constructor per raising site. */
  datatype Error =
    | DeadzoneOutOfRange               // ValueError: not 0 <= deadzone < outer_deadzone <= 1
    | NonPositiveCurveFactor           // ValueError: curve_factor <= 0
    | UnknownCurveType(name: string)   // ValueError: curve_type is none of the four shapes
    | ZeroDivision                     // ZeroDivisionError: a float division by 0, or pow(0.0, w) with w < 0
    | MissingStopEvent                 // ValueError: run called with stop_event None
    | NoKeyMapping                     // AttributeError: key_mapping None has no items()
    | StopEventNotAnEvent              // AttributeError: the default stop_event False has no is_set()
    | UnknownKeyName                   // KeyError: a key name that KEYCODES does not hold
    | KeyError(key: string)            // KeyError naming the missing label or key name
    | MissingDirection(direction: string)  // KeyError re-raised by run for a missing direction label
    | EmptyKeyList                     // IndexError: all_keys[0] on an empty list
    | TextNotAString                   // TypeError: setCurrentText given a key name that is not a string

  /** The library functions the curves use: math.pow (and the built-in pow),
      math.log1p and math.exp. Nothing is assumed of them. */
  datatype Math = Math(pow: (real, real) -> real, log1p: real -> real, exp: real -> real)
}
