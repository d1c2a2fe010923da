/** The per-plugin settings registry (`Piwik\Plugin\Settings`). A registry keeps
    the plugin's declared settings by name, in declaration order, and the current
    value of each setting by storage key. Reads and writes pass an existence and
    visibility guard; writes then run the setting's validator and its filter or
    type cast. Values live in memory until `Save` writes them, as one record, to
    the option store under a key derived from the plugin name.

    The functions below state each operation on plain values; the class
    `Settings` performs them step by step on its fields and its methods are
    proved to agree with these functions. */
module PluginSettings {
  import opened Wrappers
  import opened PhpValues
  import opened SettingDescriptor
  import opened Options

  /** The exceptions the registry throws, by cause. */
  datatype Error =
    | InvalidSettingName
    | DuplicateSetting
    | UnknownSetting
    | PermissionDenied
    | ValidationRejected

  // ===========================================================================
  // Registration
  // ===========================================================================

  predicate IsAlnumChar(c: char)
  {
    'a' <= c <= 'z' || 'A' <= c <= 'Z' || '0' <= c <= '9'
  }

  /** `ctype_alnum` in the C locale: a non-empty string of ASCII letters and digits. */
  predicate IsAlnum(s: string)
  {
    |s| > 0 && forall i :: 0 <= i < |s| ==> IsAlnumChar(s[i])
  }

  /** The lookup tables are consulted only when exactly one of field and type is
      set; the one that is set must then be one of the table's entries. */
  predicate LookupDefined(s: Setting)
  {
    && (s.field.Some? && s.phpType.None? ==> IsField(s.field.value))
    && (s.phpType.Some? && s.field.None? ==> IsType(s.phpType.value))
  }

  /** Why a setting may not be added to a registry that already holds `settings`. */
  function RegistrationError(settings: map<string, Setting>, s: Setting): Option<Error>
  {
    if !IsAlnum(s.name) then Some(InvalidSettingName)
    else if s.name in settings then Some(DuplicateSetting)
    else None
  }

  /** Fill in a missing type from the field, or a missing field from the type. */
  function DeriveFieldAndType(s: Setting): Setting
    requires LookupDefined(s)
  {
    if s.field.Some? && s.phpType.None? then s.(phpType := Some(GetDefaultType(s.field.value)))
    else if s.phpType.Some? && s.field.None? then s.(field := Some(GetDefaultField(s.phpType.value)))
    else s
  }

  /** Install the field-options validator when options exist and no validator does. */
  function WithAutoValidator(s: Setting): Setting
  {
    if s.validate.None? && s.fieldOptions.Some? then s.(validate := Some(FieldOptionsValidator)) else s
  }

  /** The setting as the registry stores it after adding it. */
  function Completed(s: Setting): Setting
    requires LookupDefined(s)
  {
    WithAutoValidator(DeriveFieldAndType(s))
  }

  /** An empty name is not alphanumeric, so it can never be registered. */
  lemma EmptyNameRejected(settings: map<string, Setting>, s: Setting)
    requires s.name == ""
    ensures RegistrationError(settings, s) == Some(InvalidSettingName)
  {
  }

  /** Adding fails exactly when the name is not alphanumeric (checked first) or
      already taken. */
  lemma RegistrationErrorCases(settings: map<string, Setting>, s: Setting)
    ensures RegistrationError(settings, s) == Some(InvalidSettingName) <==> !IsAlnum(s.name)
    ensures RegistrationError(settings, s) == Some(DuplicateSetting) <==> IsAlnum(s.name) && s.name in settings
    ensures RegistrationError(settings, s).None? <==> IsAlnum(s.name) && s.name !in settings
  {
  }

  /** Cross-derivation changes the type only when the field alone is set, the
      field only when the type alone is set, and otherwise neither. */
  lemma CrossDerivation(s: Setting)
    requires LookupDefined(s)
    ensures s.field.Some? && s.phpType.None? ==>
      Completed(s).phpType == Some(GetDefaultType(s.field.value)) && Completed(s).field == s.field
    ensures s.phpType.Some? && s.field.None? ==>
      Completed(s).field == Some(GetDefaultField(s.phpType.value)) && Completed(s).phpType == s.phpType
    ensures s.field.Some? == s.phpType.Some? ==>
      Completed(s).field == s.field && Completed(s).phpType == s.phpType
  {
  }

  /** The field-options validator is installed exactly when there are options
      and no validator; an existing validator is never replaced. */
  lemma AutoValidatorInstalled(s: Setting)
    requires LookupDefined(s)
    ensures Completed(s).validate ==
      (if s.validate.None? && s.fieldOptions.Some? then Some(FieldOptionsValidator) else s.validate)
  {
  }

  /** Completing a setting touches only its type, field and validator. */
  lemma CompletionKeepsTheRest(s: Setting)
    requires LookupDefined(s)
    ensures var c := Completed(s);
      && c.name == s.name && c.key == s.key && c.title == s.title
      && c.fieldOptions == s.fieldOptions && c.filter == s.filter
      && c.defaultValue == s.defaultValue
      && c.displayedForCurrentUser == s.displayedForCurrentUser
  {
  }

  /** After completion, field and type are both set unless both were null, and
      they are table entries when the given one was; completing again changes
      nothing. */
  lemma CompletionIsStable(s: Setting)
    requires LookupDefined(s)
    ensures var c := Completed(s);
      && (c.field.Some? <==> s.field.Some? || s.phpType.Some?)
      && (c.phpType.Some? <==> s.field.Some? || s.phpType.Some?)
      && (s.field.Some? && IsField(s.field.value) ==> IsField(c.field.value))
      && (s.phpType.Some? && IsType(s.phpType.value) ==> IsType(c.phpType.value))
      && LookupDefined(c)
      && Completed(c) == c
  {
  }

  /** A freshly constructed setting already has a type and a field, and no
      options, so adding it leaves it exactly as it was. */
  lemma NewSettingIsAddedAsIs(name: string, title: string)
    ensures LookupDefined(NewSetting(name, title))
    ensures Completed(NewSetting(name, title)) == NewSetting(name, title)
  {
  }

  // ===========================================================================
  // Listing
  // ===========================================================================

  /** The settings stored under `names`, in the order of `names`. */
  function InOrder(names: seq<string>, m: map<string, Setting>): (r: seq<Setting>)
    requires forall n :: n in names ==> n in m
    ensures |r| == |names|
    ensures forall i :: 0 <= i < |names| ==> r[i] == m[names[i]]
  {
    if names == [] then [] else [m[names[0]]] + InOrder(names[1..], m)
  }

  /** Registering a new name appends its setting and keeps every earlier
      setting where it was. */
  lemma InOrderAppend(names: seq<string>, m: map<string, Setting>, n: string, s: Setting)
    requires forall x :: x in names ==> x in m
    requires n !in names
    ensures InOrder(names + [n], m[n := s]) == InOrder(names, m) + [s]
  {
    var l, r := InOrder(names + [n], m[n := s]), InOrder(names, m) + [s];
    forall i | 0 <= i < |l|
      ensures l[i] == r[i]
    {
      if i < |names| {
        assert (names + [n])[i] == names[i];
      }
    }
  }

  /** The settings the current user may see, in their original order
      (`array_filter` followed by `array_values`). */
  function Visible(all: seq<Setting>): (r: seq<Setting>)
    ensures |r| <= |all|
    ensures forall i :: 0 <= i < |r| ==> r[i].displayedForCurrentUser
  {
    if all == [] then []
    else (if all[0].displayedForCurrentUser then [all[0]] else []) + Visible(all[1..])
  }

  /** Filtering distributes over concatenation: together with the one-element
      case this says the result is the visible settings in their original order. */
  lemma {:induction false} VisibleAppend(a: seq<Setting>, b: seq<Setting>)
    ensures Visible(a + b) == Visible(a) + Visible(b)
    decreases |a|
  {
    if a != [] {
      assert (a + b)[0] == a[0];
      assert (a + b)[1..] == a[1..] + b;
      VisibleAppend(a[1..], b);
    } else {
      assert a + b == b;
    }
  }

  /** A setting is listed exactly when it is registered and visible. */
  lemma {:induction false} VisibleMembers(all: seq<Setting>, s: Setting)
    ensures s in Visible(all) <==> s in all && s.displayedForCurrentUser
    decreases |all|
  {
    if all != [] {
      VisibleMembers(all[1..], s);
      assert all == [all[0]] + all[1..];
    }
  }

  /** When every setting is visible nothing is dropped, and when none is
      nothing is kept. */
  lemma {:induction false} VisibleExtremes(all: seq<Setting>)
    ensures (forall i :: 0 <= i < |all| ==> all[i].displayedForCurrentUser) ==> Visible(all) == all
    ensures (forall i :: 0 <= i < |all| ==> !all[i].displayedForCurrentUser) ==> Visible(all) == []
    decreases |all|
  {
    if all != [] {
      VisibleExtremes(all[1..]);
      assert all == [all[0]] + all[1..];
    }
  }

  // ===========================================================================
  // Values
  // ===========================================================================

  /** The guard on every read and write: the name must be registered and the
      REGISTERED setting visible to the current user. */
  function GuardError(settings: map<string, Setting>, name: string): Option<Error>
  {
    if name !in settings then Some(UnknownSetting)
    else if !settings[name].displayedForCurrentUser then Some(PermissionDenied)
    else None
  }

  /** What reading `s` returns: the stored value under its key, or else its
      default value as declared, without conversion. */
  function ReadValue(settings: map<string, Setting>, values: map<string, Value>, s: Setting): Result<Value, Error>
  {
    match GuardError(settings, s.name)
    case Some(e) => Err(e)
    case None => Ok(if s.key in values then values[s.key] else s.defaultValue)
  }

  /** `v` is one of the options `options` offers. */
  predicate IsOffered(v: Value, options: Option<FieldOptions>)
  {
    options.Some? && KeyExists(v, options.value)
  }

  /** What the field-options validator accepts: on an array-typed setting an
      array value whose every element is an option; otherwise a value that is
      itself an option. */
  function FieldOptionsAccept(s: Setting, v: Value): (accepted: bool)
    ensures accepted ==> s.fieldOptions.Some? || (v.VArray? && v.elems == [] && s.phpType == Some(TYPE_ARRAY))
    ensures accepted && !(v.VArray? && s.phpType == Some(TYPE_ARRAY)) ==> !v.VArray? && !v.VBool?
  {
    if v.VArray? && s.phpType == Some(TYPE_ARRAY) then
      var every := forall i :: 0 <= i < |v.elems| ==> IsOffered(v.elems[i], s.fieldOptions);
      assert every && v.elems != [] ==> IsOffered(v.elems[0], s.fieldOptions);
      every
    else
      IsOffered(v, s.fieldOptions)
  }

  /** Whether the setting's validator (if any) lets `v` through. */
  predicate Validates(s: Setting, v: Value)
  {
    match s.validate
    case None => true
    case Some(UserValidator(accepts)) => accepts(v)
    case Some(FieldOptionsValidator) => FieldOptionsAccept(s, v)
  }

  /** The value stored for `v`: the filter's result when there is a filter,
      otherwise `v` cast to the setting's type. */
  function Converted(s: Setting, v: Value): Value
  {
    if s.filter.Some? then s.filter.value(v) else SetType(s.phpType, v)
  }

  /** The values after writing `v` through `s`, or the exception that stops it. */
  function WriteValue(settings: map<string, Setting>, values: map<string, Value>, s: Setting, v: Value)
    : Result<map<string, Value>, Error>
  {
    match GuardError(settings, s.name)
    case Some(e) => Err(e)
    case None => if !Validates(s, v) then Err(ValidationRejected) else Ok(values[s.key := Converted(s, v)])
  }

  /** The values after removing the one stored for `s`; no guard applies. */
  function RemoveValue(values: map<string, Value>, s: Setting): map<string, Value>
  {
    if s.key in values then values - {s.key} else values
  }

  /** The guard's two errors, each exactly in its case. */
  lemma GuardErrorCases(settings: map<string, Setting>, name: string)
    ensures GuardError(settings, name) == Some(UnknownSetting) <==> name !in settings
    ensures GuardError(settings, name) == Some(PermissionDenied) <==>
      name in settings && !settings[name].displayedForCurrentUser
  {
  }

  /** Reading and writing are guarded alike: whenever one of them fails the
      guard, both fail with the same error. */
  lemma ReadAndWriteShareTheGuard(settings: map<string, Setting>, values: map<string, Value>, s: Setting, v: Value)
    ensures ReadValue(settings, values, s).Err? <==> GuardError(settings, s.name).Some?
    ensures ReadValue(settings, values, s).Err? ==>
      WriteValue(settings, values, s, v) == Err(ReadValue(settings, values, s).error)
  {
  }

  /** A write succeeds exactly when the guard passes and the validator accepts
      the value as given, before any filter or cast. */
  lemma WriteSucceedsIff(settings: map<string, Setting>, values: map<string, Value>, s: Setting, v: Value)
    ensures WriteValue(settings, values, s, v).Ok? <==> GuardError(settings, s.name).None? && Validates(s, v)
    ensures GuardError(settings, s.name).None? && !Validates(s, v) ==>
      WriteValue(settings, values, s, v) == Err(ValidationRejected)
  {
  }

  /** A successful write changes the entry under the setting's key and no other. */
  lemma WriteTouchesOnlyItsKey(settings: map<string, Setting>, values: map<string, Value>, s: Setting, v: Value)
    requires WriteValue(settings, values, s, v).Ok?
    ensures var after := WriteValue(settings, values, s, v).value;
      && after.Keys == values.Keys + {s.key}
      && after[s.key] == Converted(s, v)
      && forall k :: k in values && k != s.key ==> after[k] == values[k]
  {
  }

  /** With a filter the type is ignored and the filter's result is stored. */
  lemma FilterReplacesCast(s: Setting, v: Value, t: Option<string>)
    requires s.filter.Some?
    ensures Converted(s, v) == s.filter.value(v)
    ensures Converted(s.(phpType := t), v) == Converted(s, v)
  {
  }

  /** A read after a successful write returns the filtered or cast value. */
  lemma ReadAfterWrite(settings: map<string, Setting>, values: map<string, Value>, s: Setting, v: Value)
    requires WriteValue(settings, values, s, v).Ok?
    ensures ReadValue(settings, WriteValue(settings, values, s, v).value, s) == Ok(Converted(s, v))
  {
  }

  /** A setting with no stored value reads as its default value, unconverted
      even when it does not match the setting's type. */
  lemma ReadUnsetIsDefault(settings: map<string, Setting>, values: map<string, Value>, s: Setting)
    requires GuardError(settings, s.name).None? && s.key !in values
    ensures ReadValue(settings, values, s) == Ok(s.defaultValue)
  {
  }

  /** The guard looks at the name but the value lives under the key: a write
      through `s` is invisible to a setting `t` of the same name stored under
      another key, and a setting with another name but the same key reads it. */
  lemma NameGuardsKeyStores(settings: map<string, Setting>, values: map<string, Value>, s: Setting, t: Setting, v: Value)
    requires WriteValue(settings, values, s, v).Ok?
    ensures t.key != s.key ==>
      ReadValue(settings, WriteValue(settings, values, s, v).value, t) == ReadValue(settings, values, t)
    ensures t.key == s.key && GuardError(settings, t.name).None? ==>
      ReadValue(settings, WriteValue(settings, values, s, v).value, t) == Ok(Converted(s, v))
  {
  }

  /** Removing deletes only the setting's key, whether or not the setting is
      registered or visible; removing twice is removing once; afterwards the
      setting reads as its default. */
  lemma RemoveProperties(settings: map<string, Setting>, values: map<string, Value>, s: Setting)
    ensures RemoveValue(values, s).Keys == values.Keys - {s.key}
    ensures forall k :: k in RemoveValue(values, s) ==> RemoveValue(values, s)[k] == values[k]
    ensures RemoveValue(RemoveValue(values, s), s) == RemoveValue(values, s)
    ensures s.key !in values ==> RemoveValue(values, s) == values
    ensures ReadValue(settings, RemoveValue(values, s), s) ==
      (if GuardError(settings, s.name).Some? then Err(GuardError(settings, s.name).value) else Ok(s.defaultValue))
  {
  }

  // ---------------------------------------------------------------------------
  // The field-options validator
  // ---------------------------------------------------------------------------

  /** With options {"a": "A", "b": "B"}: "a" is accepted and "z" is not; on an
      array-typed setting ["a", "b"] is accepted and ["a", "z"] is not. */
  lemma FieldOptionsExample(s: Setting)
    requires s.fieldOptions == Some(map[StrKey("a") := "A", StrKey("b") := "B"])
    requires s.validate == Some(FieldOptionsValidator)
    ensures Validates(s, VStr("a")) && !Validates(s, VStr("z"))
    ensures s.phpType == Some(TYPE_ARRAY) ==>
      Validates(s, VArray([VStr("a"), VStr("b")])) && !Validates(s, VArray([VStr("a"), VStr("z")]))
  {
    assert DigitPrefixLength("a") == 0 && DigitPrefixLength("b") == 0 && DigitPrefixLength("z") == 0;
    assert AsArrayKey(VStr("a")) == Some(StrKey("a"));
    assert AsArrayKey(VStr("b")) == Some(StrKey("b"));
    assert AsArrayKey(VStr("z")) == Some(StrKey("z"));
    assert !IsOffered(VArray([VStr("a"), VStr("z")]).elems[1], s.fieldOptions);
  }

  /** An integer option can be chosen as the integer or as its decimal string. */
  lemma FieldOptionsIntOrString(s: Setting, i: int)
    ensures FieldOptionsAccept(s, VStr(IntToString(i))) <==> FieldOptionsAccept(s, VInt(i))
  {
    if s.fieldOptions.Some? {
      IntAndItsStringAreOneKey(i, s.fieldOptions.value);
    }
  }

  /** An array value is rejected by a setting that is not array-typed (an array
      is no array key), and the empty array is accepted by one that is. */
  lemma FieldOptionsArrayEdgeCases(s: Setting, v: Value)
    requires v.VArray?
    ensures s.phpType != Some(TYPE_ARRAY) ==> !FieldOptionsAccept(s, v)
    ensures s.phpType == Some(TYPE_ARRAY) && v.elems == [] ==> FieldOptionsAccept(s, v)
  {
  }

  /** The validator closure: a loop over the elements of an array value, or a
      single lookup otherwise. */
  method RunFieldOptionsValidator(s: Setting, v: Value) returns (accepted: bool)
    ensures accepted == FieldOptionsAccept(s, v)
  {
    if v.VArray? && s.phpType == Some(TYPE_ARRAY) {
      var i := 0;
      while i < |v.elems|
        invariant 0 <= i <= |v.elems|
        invariant forall j :: 0 <= j < i ==> IsOffered(v.elems[j], s.fieldOptions)
      {
        if !IsOffered(v.elems[i], s.fieldOptions) {
          return false;
        }
        i := i + 1;
      }
      accepted := true;
    } else {
      accepted := IsOffered(v, s.fieldOptions);
    }
  }

  /** Call the setting's validate closure, if it has one. */
  method RunValidate(s: Setting, v: Value) returns (accepted: bool)
    ensures accepted == Validates(s, v)
  {
    match s.validate
    case None =>
      accepted := true;
    case Some(UserValidator(accepts)) =>
      accepted := accepts(v);
    case Some(FieldOptionsValidator) =>
      accepted := RunFieldOptionsValidator(s, v);
  }

  // ===========================================================================
  // Persistence
  // ===========================================================================

  /** The option name a plugin's values are stored under. */
  function OptionKey(pluginName: string): (k: string)
    ensures |k| == |pluginName| + 16
    ensures k[..7] == "Plugin_" && k[7..7 + |pluginName|] == pluginName && k[7 + |pluginName|..] == "_Settings"
  {
    "Plugin_" + pluginName + "_Settings"
  }

  /** What a registry constructed for `pluginName` loads from the store: the
      stored record, or no values when there is none. */
  function LoadedValues(options: map<string, Blob>, pluginName: string): Blob
  {
    if OptionKey(pluginName) in options then options[OptionKey(pluginName)] else map[]
  }

  /** The store after a registry for `pluginName` saves `values`. */
  function SavedOptions(options: map<string, Blob>, pluginName: string, values: Blob): map<string, Blob>
  {
    options[OptionKey(pluginName) := values]
  }

  /** The store after a registry for `pluginName` removes all its settings. */
  function DeletedOptions(options: map<string, Blob>, pluginName: string): map<string, Blob>
  {
    options - {OptionKey(pluginName)}
  }

  /** Distinct plugins store their values under distinct option names. */
  lemma OptionKeyInjective(a: string, b: string)
    requires OptionKey(a) == OptionKey(b)
    ensures a == b
  {
    var ka, kb := OptionKey(a), OptionKey(b);
    assert |a| == |b|;
    assert ka[7..7 + |a|] == a;
    assert kb[7..7 + |b|] == b;
  }

  /** A registry constructed after a save loads exactly the saved values. */
  lemma LoadAfterSave(options: map<string, Blob>, pluginName: string, values: Blob)
    ensures LoadedValues(SavedOptions(options, pluginName, values), pluginName) == values
  {
  }

  /** A registry constructed after all settings were removed loads no values. */
  lemma LoadAfterRemoveAll(options: map<string, Blob>, pluginName: string)
    ensures LoadedValues(DeletedOptions(options, pluginName), pluginName) == map[]
  {
  }

  /** Saving or removing one plugin's settings leaves every other plugin's alone. */
  lemma OtherPluginsUntouched(options: map<string, Blob>, p: string, q: string, values: Blob)
    requires p != q
    ensures LoadedValues(SavedOptions(options, p, values), q) == LoadedValues(options, q)
    ensures LoadedValues(DeletedOptions(options, p), q) == LoadedValues(options, q)
  {
    if OptionKey(p) == OptionKey(q) {
      OptionKeyInjective(p, q);
    }
  }

  /** Write, save, construct a new registry with the same settings: the read
      returns the filtered or cast value that was written. */
  lemma WriteSaveReload(
    settings: map<string, Setting>, values: Blob, options: map<string, Blob>,
    pluginName: string, s: Setting, v: Value)
    requires WriteValue(settings, values, s, v).Ok?
    ensures var saved := SavedOptions(options, pluginName, WriteValue(settings, values, s, v).value);
      ReadValue(settings, LoadedValues(saved, pluginName), s) == Ok(Converted(s, v))
  {
    LoadAfterSave(options, pluginName, WriteValue(settings, values, s, v).value);
    ReadAfterWrite(settings, values, s, v);
  }

  /** Remove all settings, construct a new registry: every permitted read
      returns the default value. */
  lemma RemoveAllReload(settings: map<string, Setting>, options: map<string, Blob>, pluginName: string, s: Setting)
    requires GuardError(settings, s.name).None?
    ensures ReadValue(settings, LoadedValues(DeletedOptions(options, pluginName), pluginName), s) == Ok(s.defaultValue)
  {
    LoadAfterRemoveAll(options, pluginName);
  }

  // ===========================================================================
  // The registry object
  // ===========================================================================

  class Settings {
    const pluginName: string
    /** Setting names in declaration order; the keys of `settings`. */
    var order: seq<string>
    /** The declared settings by name. */
    var settings: map<string, Setting>
    /** The current values by storage key. */
    var settingsValues: map<string, Value>

    ghost predicate Valid()
      reads this`order, this`settings
    {
      && (forall n :: n in settings <==> n in order)
      && (forall i, j :: 0 <= i < j < |order| ==> order[i] != order[j])
      && (forall n :: n in settings ==> settings[n].name == n && IsAlnum(n))
    }

    /** A registry for `pluginName` with the values stored for it, if any.
        Declaring the plugin's settings (the `init` hook) is left to `AddSetting`. */
    constructor (pluginName: string, store: OptionStore)
      ensures Valid()
      ensures this.pluginName == pluginName && order == [] && settings == map[]
      ensures settingsValues == LoadedValues(store.options, pluginName)
    {
      this.pluginName := pluginName;
      order := [];
      settings := map[];
      settingsValues := map[];
      new;
      LoadSettings(store);
    }

    /** Replace the values by the record stored for this plugin, if there is one. */
    method LoadSettings(store: OptionStore)
      modifies this`settingsValues
      ensures settingsValues ==
        if OptionKey(pluginName) in store.options then store.options[OptionKey(pluginName)] else old(settingsValues)
    {
      var values := store.Get(OptionKey(pluginName));
      if values.Some? {
        settingsValues := values.value;
      }
    }

    /** Every declared setting, in declaration order. */
    function GetSettings(): (r: seq<Setting>)
      reads this`order, this`settings
      requires Valid()
      ensures |r| == |order|
      ensures forall i :: 0 <= i < |r| ==> r[i] == settings[order[i]] && r[i].name == order[i]
    {
      InOrder(order, settings)
    }

    /** The declared settings the current user may see, in declaration order. */
    function GetSettingsForCurrentUser(): (r: seq<Setting>)
      reads this`order, this`settings
      requires Valid()
      ensures r == Visible(GetSettings())
      ensures forall s :: s in r <==> s in GetSettings() && s.displayedForCurrentUser
    {
      VisibleMembersAll(GetSettings());
      Visible(GetSettings())
    }

    /** Add a setting: reject a name that is not alphanumeric or already taken,
        complete the field or type, install the field-options validator, and
        append it. Returns the completed setting, which the source writes back
        into the caller's object. */
    method AddSetting(s: Setting) returns (res: Result<Setting, Error>)
      requires Valid()
      requires RegistrationError(settings, s).None? ==> LookupDefined(s)
      modifies this`order, this`settings
      ensures Valid()
      ensures res.Err? <==> RegistrationError(old(settings), s).Some?
      ensures res.Err? ==>
        && res.error == RegistrationError(old(settings), s).value
        && settings == old(settings) && order == old(order)
      ensures res.Ok? ==>
        && res.value == Completed(s)
        && settings == old(settings)[s.name := Completed(s)] && order == old(order) + [s.name]
      ensures res.Ok? ==> GetSettings() == old(GetSettings()) + [Completed(s)]
    {
      if !IsAlnum(s.name) {
        return Err(InvalidSettingName);
      }
      if s.name in settings {
        return Err(DuplicateSetting);
      }
      var completed := s;
      if completed.field.Some? && completed.phpType.None? {
        completed := completed.(phpType := Some(GetDefaultType(completed.field.value)));
      } else if completed.phpType.Some? && completed.field.None? {
        completed := completed.(field := Some(GetDefaultField(completed.phpType.value)));
      }
      if completed.validate.None? && completed.fieldOptions.Some? {
        completed := completed.(validate := Some(FieldOptionsValidator));
      }
      InOrderAppend(order, settings, s.name, completed);
      settings := settings[s.name := completed];
      order := order + [s.name];
      res := Ok(completed);
    }

    /** The registered setting called `name`, if any. */
    method GetSetting(name: string) returns (r: Option<Setting>)
      ensures r.Some? <==> name in settings
      ensures r.Some? ==> r.value == settings[name]
    {
      if name in settings {
        return Some(settings[name]);
      }
      return None;
    }

    /** The guard shared by reads and writes. */
    method CheckIsValidSetting(name: string) returns (err: Option<Error>)
      ensures err == GuardError(settings, name)
    {
      var setting := GetSetting(name);
      if setting.None? {
        return Some(UnknownSetting);
      }
      if !setting.value.CanBeDisplayedForCurrentUser() {
        return Some(PermissionDenied);
      }
      return None;
    }

    /** The current value of `s`, or its default. */
    method GetSettingValue(s: Setting) returns (r: Result<Value, Error>)
      ensures r == ReadValue(settings, settingsValues, s)
    {
      var err := CheckIsValidSetting(s.GetName());
      if err.Some? {
        return Err(err.value);
      }
      if s.GetKey() in settingsValues {
        return Ok(settingsValues[s.GetKey()]);
      }
      return Ok(s.defaultValue);
    }

    /** Set the value of `s`: guard, validate, filter or cast, then store.
        On any error the values are left as they were. */
    method SetSettingValue(s: Setting, value: Value) returns (err: Option<Error>)
      modifies this`settingsValues
      ensures WriteValue(settings, old(settingsValues), s, value).Err? ==>
        err == Some(WriteValue(settings, old(settingsValues), s, value).error)
        && settingsValues == old(settingsValues)
      ensures WriteValue(settings, old(settingsValues), s, value).Ok? ==>
        err.None? && settingsValues == WriteValue(settings, old(settingsValues), s, value).value
    {
      err := CheckIsValidSetting(s.GetName());
      if err.Some? {
        return;
      }
      var accepted := RunValidate(s, value);
      if !accepted {
        return Some(ValidationRejected);
      }
      var v := value;
      if s.filter.Some? {
        v := s.filter.value(v);
      } else {
        v := SetType(s.phpType, v);
      }
      settingsValues := settingsValues[s.GetKey() := v];
    }

    /** Forget the value of `s`, with no guard at all. */
    method RemoveSettingValue(s: Setting)
      modifies this`settingsValues
      ensures settingsValues == RemoveValue(old(settingsValues), s)
    {
      var key := s.GetKey();
      if key in settingsValues {
        settingsValues := settingsValues - {key};
      }
    }

    /** Write all current values to the store as this plugin's record. */
    method Save(store: OptionStore)
      modifies store
      ensures store.options == SavedOptions(old(store.options), pluginName, settingsValues)
    {
      store.Set(OptionKey(pluginName), settingsValues);
    }

    /** Delete this plugin's record from the store; the in-memory values stay. */
    method RemoveAllPluginSettings(store: OptionStore)
      modifies store
      ensures store.options == DeletedOptions(old(store.options), pluginName)
    {
      store.Delete(OptionKey(pluginName));
    }
  }

  /** `VisibleMembers` for every setting at once. */
  lemma VisibleMembersAll(all: seq<Setting>)
    ensures forall s :: s in Visible(all) <==> s in all && s.displayedForCurrentUser
  {
    forall s {
      VisibleMembers(all, s);
    }
  }
}
