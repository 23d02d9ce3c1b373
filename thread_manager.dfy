/** assemble_key_mapping_from_settings (utils/thread_manager.py): the key
    mapping handed to the engine, label to key code, built from the user's
    settings or, when that raises KeyError, rebuilt wholly from the defaults. */
module ThreadManager {
  import opened Common
  import opened KeyCodes
  import Settings

  /** One entry of the comprehension: src[direction] translated through KEYCODES
      when it is a string, kept otherwise; KeyError names the missing label or
      the unknown key name. */
  function Entry(src: map<string, Value>, direction: string, t: KeyTable): (r: Result<Value>)
    ensures r.Ok? <==> direction in src && Resolve(t, src[direction]).Some?
    ensures r.Ok? ==> Some(r.value) == Resolve(t, src[direction])
    ensures r.Err? ==> (direction !in src && r.error == KeyError(direction)) ||
                       (direction in src && src[direction].Str? && CodeOf(t, src[direction].s).None? &&
                        r.error == KeyError(src[direction].s))
  {
    if direction !in src then Err(KeyError(direction))
    else
      match Resolve(t, src[direction])
      case Some(v) => Ok(v)
      case None => Err(KeyError(src[direction].s))
  }

  /** The dictionary comprehension over the labels, evaluated label by label:
      the first KeyError aborts it. */
  function Comprehension(src: map<string, Value>, labels: seq<string>, t: KeyTable): (r: Result<map<string, Value>>)
    ensures r.Ok? <==> forall i :: 0 <= i < |labels| ==> Entry(src, labels[i], t).Ok?
    // Exactly one entry per label, each the translation of that label's setting.
    ensures r.Ok? ==> r.value.Keys == (set l | l in labels) &&
                      forall l :: l in r.value ==> Entry(src, l, t) == Ok(r.value[l])
    // The error is that of the first label that fails.
    ensures r.Err? ==> exists i :: 0 <= i < |labels| && Entry(src, labels[i], t) == Err(r.error) &&
                                   forall j :: 0 <= j < i ==> Entry(src, labels[j], t).Ok?
    decreases |labels|
  {
    if labels == [] then Ok(map[])
    else
      assert forall i :: 1 <= i < |labels| ==> labels[i] == labels[1..][i - 1];
      match Entry(src, labels[0], t)
      case Err(e) => Err(e)
      case Ok(v) =>
        match Comprehension(src, labels[1..], t)
        case Err(e) =>
          ghost var k :| 0 <= k < |labels[1..]| && Entry(src, labels[1..][k], t) == Err(e) &&
                         forall j :: 0 <= j < k ==> Entry(src, labels[1..][j], t).Ok?;
          assert Entry(src, labels[k + 1], t) == Err(e);
          Err(e)
        case Ok(rest) =>
          assert (set l | l in labels) == (set l | l in labels[1..]) + {labels[0]};
          Ok(rest[labels[0] := v])
  }

  /** Every label of `labels` is mapped as the comprehension over `src` maps it. */
  ghost predicate AllFrom(km: map<string, Value>, src: map<string, Value>, labels: seq<string>, t: KeyTable) {
    forall i :: 0 <= i < |labels| ==> labels[i] in km && Entry(src, labels[i], t) == Ok(km[labels[i]])
  }

  /** The user's mapping when every label resolves in it; otherwise the
      defaults' mapping, whose own KeyError is not caught. */
  function AssembleKeyMappingFromSettings(settings: map<string, Value>, defaults: map<string, Value>,
                                          labels: seq<string>, t: KeyTable): (r: Result<map<string, Value>>)
    ensures r.Ok? ==> r.value.Keys == set l | l in labels
    // Never a mix: every entry comes from the settings, or every entry from the defaults.
    ensures r.Ok? ==> AllFrom(r.value, settings, labels, t) || AllFrom(r.value, defaults, labels, t)
    // The defaults are consulted only when some label fails in the settings.
    ensures (forall i :: 0 <= i < |labels| ==> Entry(settings, labels[i], t).Ok?) ==>
              r.Ok? && AllFrom(r.value, settings, labels, t)
    ensures (exists i :: 0 <= i < |labels| && Entry(settings, labels[i], t).Err?) && r.Ok? ==>
              AllFrom(r.value, defaults, labels, t)
    // It raises only when some label fails in both, with the defaults' first error.
    ensures r.Err? <==> (exists i :: 0 <= i < |labels| && Entry(settings, labels[i], t).Err?) &&
                        (exists i :: 0 <= i < |labels| && Entry(defaults, labels[i], t).Err?)
    ensures r.Err? ==> exists i :: 0 <= i < |labels| && Entry(defaults, labels[i], t) == Err(r.error) &&
                                   forall j :: 0 <= j < i ==> Entry(defaults, labels[j], t).Ok?
  {
    match Comprehension(settings, labels, t)
    case Ok(km) => Ok(km)
    case Err(_) => Comprehension(defaults, labels, t)
  }

  /** default_settings as shipped holds only its six setting names, so unless
      the first direction label is one of them the fallback itself raises
      KeyError for that label whenever the user's mapping fails. */
  lemma FallbackToShippedDefaultsRaises(settings: map<string, Value>, labels: seq<string>, t: KeyTable)
    requires |labels| > 0 && labels[0] !in Settings.DefaultSettings
    requires Comprehension(settings, labels, t).Err?
    ensures AssembleKeyMappingFromSettings(settings, Settings.DefaultSettings, labels, t) == Err(KeyError(labels[0]))
  {
  }
}
