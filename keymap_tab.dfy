/** The key-mapping tab (gui/keymap_tab.py): one dropdown per direction label,
    each holding every key name and set to the name of the label's saved key.
    The widgets are reduced to the items and the text each dropdown is set to;
    layout and labels on screen are not part of this model. */
module KeymapTab {
  import opened Common
  import opened KeyCodes

  /** settings.get(label): the saved value, None when there is none. */
  function Get(settings: map<string, Value>, direction: string): Value {
    if direction in settings then settings[direction] else Null
  }

  /** The key name a dropdown is set to for a saved value: None gives the first
      key name, an int (a bool included) the first name in KEYCODES' order
      carrying that code, any other value is used as it is. all_keys[0] is the
      default argument of next() and is evaluated first, so an empty key list
      raises for an int even when a name matches. */
  function KeyNameFor(saved: Value, allKeys: seq<string>, t: KeyTable): (r: Result<Value>)
    ensures r.Err? <==> allKeys == [] && (saved.Null? || IsInt(saved))
    ensures r.Err? ==> r.error == EmptyKeyList
    ensures !saved.Null? && !IsInt(saved) ==> r == Ok(saved)
    ensures saved.Null? && r.Ok? ==> r.value == Str(allKeys[0])
    ensures IsInt(saved) && r.Ok? ==>
              r.value.Str? &&
              (NameOf(t, IntOf(saved)).None? ==> r.value.s == allKeys[0]) &&
              (NameOf(t, IntOf(saved)).Some? ==>
                 exists i :: 0 <= i < |t| && t[i] == (r.value.s, IntOf(saved)) &&
                             forall j :: 0 <= j < i ==> t[j].1 != IntOf(saved))
  {
    if saved.Null? then
      if allKeys == [] then Err(EmptyKeyList) else Ok(Str(allKeys[0]))
    else if IsInt(saved) then
      if allKeys == [] then Err(EmptyKeyList)
      else
        match NameOf(t, IntOf(saved))
        case Some(n) => Ok(Str(n))
        case None => Ok(Str(allKeys[0]))
    else Ok(saved)
  }

  /** A saved key code shown as a name turns back into that code when the
      mapping is next assembled, as long as KEYCODES has a name for it. */
  lemma SavedCodeRoundTrips(saved: Value, allKeys: seq<string>, t: KeyTable)
    requires DistinctNames(t)
    requires IsInt(saved) && allKeys != [] && NameOf(t, IntOf(saved)).Some?
    ensures KeyNameFor(saved, allKeys, t).Ok?
    ensures Resolve(t, KeyNameFor(saved, allKeys, t).value) == Some(Int(IntOf(saved)))
  {
    NameOfThenCodeOf(t, IntOf(saved));
  }

  /** dropdown.setCurrentText(key_name): the text a dropdown is set to for a
      saved value, or the exception raised on the way. A key name that is not
      a string, which only a saved value other than None, an int or a string
      leads to, raises TypeError. */
  function CurrentText(saved: Value, allKeys: seq<string>, t: KeyTable): (r: Result<string>)
    ensures r.Ok? <==> saved.Str? || (allKeys != [] && (saved.Null? || IsInt(saved)))
    ensures r.Ok? ==> KeyNameFor(saved, allKeys, t) == Ok(Str(r.value))
    ensures r.Err? ==> r.error == (if KeyNameFor(saved, allKeys, t).Err? then EmptyKeyList else TextNotAString)
  {
    match KeyNameFor(saved, allKeys, t)
    case Err(e) => Err(e)
    case Ok(name) => if name.Str? then Ok(name.s) else Err(TextNotAString)
  }

  /** A QComboBox reduced to its items and the text it was set to. */
  datatype Dropdown = Dropdown(items: seq<string>, currentText: string)

  /** The dropdowns after the loop has handled `labels`, or the exception
      raised by the first label whose key name cannot be found. */
  function Dropdowns(settings: map<string, Value>, labels: seq<string>, allKeys: seq<string>, t: KeyTable)
    : (r: Result<map<string, Dropdown>>)
    ensures r.Ok? <==> forall i :: 0 <= i < |labels| ==> CurrentText(Get(settings, labels[i]), allKeys, t).Ok?
    decreases |labels|
  {
    if labels == [] then Ok(map[])
    else
      var last := labels[|labels| - 1];
      var init := labels[..|labels| - 1];
      assert forall i :: 0 <= i < |init| ==> init[i] == labels[i];
      match Dropdowns(settings, init, allKeys, t)
      case Err(e) => Err(e)
      case Ok(d) =>
        match CurrentText(Get(settings, last), allKeys, t)
        case Err(e) => Err(e)
        case Ok(name) => Ok(d[last := Dropdown(allKeys, name)])
  }

  /** One dropdown per label, keyed by the label, listing every key name and
      set to the name for that label's saved value. */
  lemma {:induction false} DropdownsContents(settings: map<string, Value>, labels: seq<string>, allKeys: seq<string>, t: KeyTable)
    requires Dropdowns(settings, labels, allKeys, t).Ok?
    ensures var d := Dropdowns(settings, labels, allKeys, t).value;
            d.Keys == (set l | l in labels) &&
            forall l :: l in d ==>
              CurrentText(Get(settings, l), allKeys, t).Ok? &&
              d[l] == Dropdown(allKeys, CurrentText(Get(settings, l), allKeys, t).value)
    decreases |labels|
  {
    if labels != [] {
      var last := labels[|labels| - 1];
      var init := labels[..|labels| - 1];
      assert labels == init + [last];
      DropdownsContents(settings, init, allKeys, t);
      assert (set l | l in labels) == (set l | l in init) + {last};
    }
  }

  /** One more label handled by the loop. */
  lemma DropdownsStep(settings: map<string, Value>, labels: seq<string>, allKeys: seq<string>, t: KeyTable, i: nat)
    requires i < |labels|
    ensures var prev := Dropdowns(settings, labels[..i], allKeys, t);
            var name := CurrentText(Get(settings, labels[i]), allKeys, t);
            Dropdowns(settings, labels[..i + 1], allKeys, t) ==
              if prev.Err? then prev
              else if name.Err? then Err(name.error)
              else Ok(prev.value[labels[i] := Dropdown(allKeys, name.value)])
  {
    var s := labels[..i + 1];
    assert s[..|s| - 1] == labels[..i];
    assert s[|s| - 1] == labels[i];
  }

  /** Once a label has raised, later labels do not change the outcome. */
  lemma {:induction false} DropdownsErrorPersists(settings: map<string, Value>, labels: seq<string>,
                                                  allKeys: seq<string>, t: KeyTable, n: nat)
    requires n <= |labels|
    requires Dropdowns(settings, labels[..n], allKeys, t).Err?
    ensures Dropdowns(settings, labels, allKeys, t) == Dropdowns(settings, labels[..n], allKeys, t)
    decreases |labels| - n
  {
    if n == |labels| {
      assert labels[..n] == labels;
    } else {
      DropdownsStep(settings, labels, allKeys, t, n);
      DropdownsErrorPersists(settings, labels, allKeys, t, n + 1);
    }
  }

  /** With a nonempty key list the tab raises exactly when some label's saved
      value is none of None, an int and a string. */
  lemma NonEmptyKeyListRaisesOnlyForOtherTypes(settings: map<string, Value>, labels: seq<string>, allKeys: seq<string>, t: KeyTable)
    requires allKeys != []
    ensures Dropdowns(settings, labels, allKeys, t).Ok? <==>
            forall i :: 0 <= i < |labels| ==>
              var saved := Get(settings, labels[i]);
              saved.Null? || IsInt(saved) || saved.Str?
  {
  }

  class KeyMappingTab {
    var keyMappingDropdowns: map<string, Dropdown>
    /** The exception the constructor raised, if it did. */
    var raised: Option<Error>

    /** KeyMappingTab.__init__: the loop over the direction labels, filling
        key_mapping_dropdowns in place. */
    constructor (settings: map<string, Value>, labels: seq<string>, allKeys: seq<string>, t: KeyTable)
      ensures raised.None? <==> Dropdowns(settings, labels, allKeys, t).Ok?
      ensures raised.None? ==> keyMappingDropdowns == Dropdowns(settings, labels, allKeys, t).value
      ensures raised.Some? ==> Dropdowns(settings, labels, allKeys, t) == Err(raised.value)
      // One dropdown per label, each listing every key name.
      ensures raised.None? ==> keyMappingDropdowns.Keys == (set l | l in labels) &&
                               forall l :: l in keyMappingDropdowns ==> keyMappingDropdowns[l].items == allKeys
    {
      keyMappingDropdowns := map[];
      raised := None;
      new;
      var i := 0;
      while i < |labels|
        invariant 0 <= i <= |labels|
        invariant raised.None?
        invariant Dropdowns(settings, labels[..i], allKeys, t) == Ok(keyMappingDropdowns)
      {
        var direction := labels[i];
        var text := CurrentText(Get(settings, direction), allKeys, t);
        DropdownsStep(settings, labels, allKeys, t, i);
        if text.Err? {
          assert Dropdowns(settings, labels[..i + 1], allKeys, t) == Err(text.error);
          DropdownsErrorPersists(settings, labels, allKeys, t, i + 1);
          raised := Some(text.error);
          return;
        }
        keyMappingDropdowns := keyMappingDropdowns[direction := Dropdown(allKeys, text.value)];
        assert Dropdowns(settings, labels[..i + 1], allKeys, t) == Ok(keyMappingDropdowns);
        i := i + 1;
      }
      assert labels[..i] == labels;
      DropdownsContents(settings, labels, allKeys, t);
    }
  }
}
