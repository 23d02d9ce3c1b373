/** load_settings (utils/settings.py): the dictionary read from the settings
    file, or a copy of the defaults when there is none, completed in place with
    every default key it lacks. Reading and writing the file are not part of
    this model: the loaded dictionary, or its absence, is a parameter. */
module Settings {
  import opened Common

  /** default_settings. */
  const DefaultSettings: map<string, Value> := map[
    "mouse_sensitivity" := Int(23),
    "y_sensitivity_adjustment" := Float(0.23),
    "scroll_sensitivity" := Float(0.4),
    "deadzone" := Float(0.08),
    "curve_factor" := Float(10.0),
    "key_mapping" := Str("F13-F16 Keys")
  ]

  /** The settings completed with the defaults: every key of either, a loaded
      value wherever there is one, the default value elsewhere. */
  function WithDefaults(settings: map<string, Value>, defaults: map<string, Value>): (r: map<string, Value>)
    ensures r.Keys == settings.Keys + defaults.Keys
    ensures forall k :: k in settings ==> r[k] == settings[k]
    ensures forall k :: k in defaults && k !in settings ==> r[k] == defaults[k]
  {
    map k | k in settings.Keys + defaults.Keys :: if k in settings then settings[k] else defaults[k]
  }

  /** The `for key, value in default_settings.items()` loop: each default key
      the settings lack is inserted, one at a time; the order of the defaults
      does not change the result. */
  method MergeDefaults(loaded: map<string, Value>, defaults: map<string, Value>) returns (settings: map<string, Value>)
    ensures settings == WithDefaults(loaded, defaults)
  {
    settings := loaded;
    var pending := defaults.Keys;
    while pending != {}
      invariant pending <= defaults.Keys
      invariant settings == WithDefaults(loaded, defaults - pending)
      decreases pending
    {
      var key :| key in pending;
      ghost var done := defaults - pending;
      if key !in settings {
        settings := settings[key := defaults[key]];
      }
      pending := pending - {key};
      assert defaults - pending == done[key := defaults[key]];
    }
    assert defaults - pending == defaults;
  }

  /** load_settings without the file I/O: `loaded` is the dictionary the file
      held, None when it did not exist. */
  method LoadSettings(loaded: Option<map<string, Value>>) returns (settings: map<string, Value>)
    ensures settings == WithDefaults(if loaded.Some? then loaded.value else DefaultSettings, DefaultSettings)
    // Every default key is present afterwards.
    ensures DefaultSettings.Keys <= settings.Keys
    // A missing file gives exactly the defaults.
    ensures loaded.None? ==> settings == DefaultSettings
    // Loaded values are never overwritten, and keys outside the defaults stay.
    ensures loaded.Some? ==> forall k :: k in loaded.value ==> k in settings && settings[k] == loaded.value[k]
    ensures loaded.Some? ==> settings.Keys == loaded.value.Keys + DefaultSettings.Keys
  {
    var base := if loaded.Some? then loaded.value else DefaultSettings;
    settings := MergeDefaults(base, DefaultSettings);
    if loaded.None? {
      DefaultsAreAFixedPoint(DefaultSettings);
    }
  }

  /** Completing the defaults with themselves changes nothing. */
  lemma DefaultsAreAFixedPoint(defaults: map<string, Value>)
    ensures WithDefaults(defaults, defaults) == defaults
  {
  }

  /** A second pass of the merge changes nothing. */
  lemma MergeIsIdempotent(settings: map<string, Value>, defaults: map<string, Value>)
    ensures WithDefaults(WithDefaults(settings, defaults), defaults) == WithDefaults(settings, defaults)
  {
  }

  /** Merging changes a dictionary exactly when it lacks some default key. */
  lemma MergeChangesOnlyWhatIsMissing(settings: map<string, Value>, defaults: map<string, Value>)
    ensures WithDefaults(settings, defaults) == settings <==> defaults.Keys <= settings.Keys
  {
    if WithDefaults(settings, defaults) == settings {
      assert WithDefaults(settings, defaults).Keys == settings.Keys;
    }
  }
}
