# Piwik plugin settings registry, modelled in Dafny

This project models the per-plugin settings registry of Piwik, the web
analytics platform: the registry class `Piwik\Plugin\Settings`
(`core/Plugin/Settings.php`) and the setting descriptor `Piwik\Settings\Setting`
(`core/Settings/Setting.php`).

A plugin declares named settings. Each setting has a PHP type, a form field,
optional allowed options, optional validate and filter closures, a default
value and a flag saying whether the current user may see it. The registry keeps:

- the declared settings by name, in declaration order;
- the current values by storage key.

Reads and writes are guarded. The setting's name must be registered, and the
registered setting must be visible to the current user. A write then runs the
validator. After that it applies the filter, or, when there is no filter, it
casts the value with `settype`. Only the entry under the setting's key changes.
`save` writes all values, as one record, to the host's option store under
`Plugin_<pluginName>_Settings`. A new registry loads that record back.

Files and modules:

- `wrappers.dfy` — `Wrappers`: `Option` and `Result`.
- `php_values.dfy` — `PhpValues`: the PHP values a setting holds. It also has
  `settype` (`SetType`), the `(int)` and `(string)` conversions, and the key
  normalisation of `array_key_exists` (`AsArrayKey`, `KeyExists`).
- `setting.dfy` — `SettingDescriptor`: the `Setting` record, its constructor
  (`NewSetting`), its getters and the two lookup tables. The type and field
  constants live here. In the source they are constants of the registry class.
- `option_store.dfy` — `Options`: the option store as a class holding a map
  from option name to record.
- `plugin_settings.dfy` — `PluginSettings`: the registry. Each operation is
  stated as a function on plain values, with lemmas about it. The class
  `Settings` performs the operations step by step on its fields. Each method's
  `ensures` ties its result and new state to the matching function.

Three points of the code that are easy to misread:

- Reading a value is guarded by visibility as well as by existence, exactly
  like writing (`core/Plugin/Settings.php:131`).
- The empty name is rejected at registration, because `ctype_alnum("")` is false.
- A new `Setting` already has type `string` and field `text`. Cross-derivation
  therefore only happens when a subclass nulls one of them.

## Model

| member | source | states |
|---|---|---|
| `SettingDescriptor.NewSetting` | core/Settings/Setting.php:30-142 | a new setting is stored under its own name, with the given title, type string, field text, no options, closures or default, and hidden from the current user |
| `SettingDescriptor.GettersReturnFields` | core/Settings/Setting.php:144-162 | `getName`, `getKey` and `canBeDisplayedForCurrentUser` return the stored fields unchanged |
| `SettingDescriptor.GetDefaultType` | core/Settings/Setting.php:164-176 | defined only on the six field names; always yields one of the type names, and never integer or float |
| `SettingDescriptor.GetDefaultField` | core/Settings/Setting.php:178-189 | defined only on the five type names; always yields text, checkbox or multiselect |
| `SettingDescriptor.DefaultTypeTable` | core/Settings/Setting.php:164-176 | checkbox gives boolean, multiselect gives array, text/textarea/password/select give string |
| `SettingDescriptor.DefaultFieldTable` | core/Settings/Setting.php:178-189 | boolean gives checkbox, array gives multiselect, integer/float/string give text |
| `SettingDescriptor.TypeFieldTypeRoundTrip` | core/Settings/Setting.php:164-189 | type to field to type returns string, boolean and array unchanged; integer and float come back as string |
| `SettingDescriptor.FieldTypeFieldRoundTrip` | core/Settings/Setting.php:164-189 | field to type to field returns checkbox and multiselect unchanged; every string field comes back as text |
| `PluginSettings.EmptyNameRejected` | core/Plugin/Settings.php:193-196 | the empty name is rejected as invalid |
| `PluginSettings.RegistrationErrorCases` | core/Plugin/Settings.php:193-200 | adding fails with the name error exactly when the name is not alphanumeric; otherwise it fails with the duplicate error exactly when the name is taken; otherwise it does not fail |
| `PluginSettings.CrossDerivation` | core/Plugin/Settings.php:202-206 | field only set: the type becomes the field's default type; type only set: the field becomes the type's default field; both or neither set: neither changes |
| `PluginSettings.AutoValidatorInstalled` | core/Plugin/Settings.php:208-226 | the field-options validator is installed exactly when there are options and no validator; an existing validator is kept |
| `PluginSettings.CompletionKeepsTheRest` | core/Plugin/Settings.php:202-226 | registration changes only type, field and validator |
| `PluginSettings.CompletionIsStable` | core/Plugin/Settings.php:202-206 | after registration, field and type are both set unless both were null; known table entries stay known; completing again changes nothing |
| `PluginSettings.NewSettingIsAddedAsIs` | core/Plugin/Settings.php:202-226 | a freshly constructed setting is registered unchanged |
| `PluginSettings.InOrder` | core/Plugin/Settings.php:98-101 | the listing has one entry per declared name, and entry i is the setting registered under name i |
| `PluginSettings.InOrderAppend` | core/Plugin/Settings.php:228 | adding a new name appends its setting and keeps all earlier settings in place |
| `PluginSettings.Visible` | core/Plugin/Settings.php:86-91 | the filtered list is no longer than the input and holds only visible settings |
| `PluginSettings.VisibleAppend` | core/Plugin/Settings.php:86-91 | filtering distributes over concatenation, so the order of the input is kept |
| `PluginSettings.VisibleMembers` | core/Plugin/Settings.php:86-91 | a setting is in the filtered list exactly when it is in the input and visible |
| `PluginSettings.VisibleExtremes` | core/Plugin/Settings.php:86-91 | if all settings are visible nothing is dropped; if none is, the result is empty |
| `PluginSettings.GuardErrorCases` | core/Plugin/Settings.php:245-257 | the unknown-setting error occurs exactly when the name is not registered; the permission error occurs exactly when the registered setting is hidden |
| `PluginSettings.ReadAndWriteShareTheGuard` | core/Plugin/Settings.php:129-167 | a read fails exactly when the guard fails, and then a write through the same setting fails with the same error |
| `PluginSettings.WriteSucceedsIff` | core/Plugin/Settings.php:152-167 | a write succeeds exactly when the guard passes and the validator accepts the raw value, checked before any filter or cast; a validator rejection is the validation error |
| `PluginSettings.WriteTouchesOnlyItsKey` | core/Plugin/Settings.php:166 | a successful write sets the setting's key to the filtered or cast value and leaves every other key as it was |
| `PluginSettings.FilterReplacesCast` | core/Plugin/Settings.php:160-164 | with a filter the filter's result is stored and the type has no effect |
| `PluginSettings.ReadAfterWrite` | core/Plugin/Settings.php:129-167 | a read after a successful write returns the value written, as filtered or cast |
| `PluginSettings.ReadUnsetIsDefault` | core/Plugin/Settings.php:133-138 | with no stored value, a permitted read returns the default value, unconverted |
| `PluginSettings.NameGuardsKeyStores` | core/Plugin/Settings.php:131-166 | the guard checks the name but the value is stored under the passed setting's key: other keys read as before, and a setting sharing the key reads the new value |
| `PluginSettings.RemoveProperties` | core/Plugin/Settings.php:175-182 | removal deletes only the setting's key, with no guard; it is idempotent; it does nothing when the key is absent; afterwards a permitted read returns the default |
| `PluginSettings.FieldOptionsExample` | core/Plugin/Settings.php:210-225 | with options a and b, on any setting: "a" is accepted and "z" rejected; on an array setting ["a","b"] is accepted and ["a","z"] rejected |
| `PluginSettings.FieldOptionsAccept` | core/Plugin/Settings.php:214-224 | the closure's acceptance rule: nothing is accepted without options except the empty array on an array setting, and outside the array case a boolean or array value is never accepted; `RunFieldOptionsValidator`, `FieldOptionsExample`, `FieldOptionsIntOrString` and `FieldOptionsArrayEdgeCases` characterise it |
| `PluginSettings.FieldOptionsIntOrString` | core/Plugin/Settings.php:221 | an integer option is accepted whether given as the integer or as its decimal string |
| `PluginSettings.FieldOptionsArrayEdgeCases` | core/Plugin/Settings.php:214-224 | an array value is rejected by a setting that is not array-typed; the empty array is accepted by an array-typed setting |
| `PluginSettings.RunFieldOptionsValidator` | core/Plugin/Settings.php:210-225 | the closure's loop accepts an array value on an array setting exactly when every element is an option key, and any other value exactly when it is itself an option key |
| `PluginSettings.RunValidate` | core/Plugin/Settings.php:156-158 | the validate step accepts when there is no validator, and otherwise exactly when the attached validator accepts |
| `PluginSettings.OptionKey` | core/Plugin/Settings.php:231-234 | the option name is "Plugin_", then the plugin name, then "_Settings"; `OptionKeyInjective` shows distinct plugins get distinct names |
| `PluginSettings.OptionKeyInjective` | core/Plugin/Settings.php:231-234 | distinct plugin names give distinct option names |
| `PluginSettings.LoadAfterSave` | core/Plugin/Settings.php:236-243 | a registry constructed after a save loads exactly the saved values |
| `PluginSettings.LoadAfterRemoveAll` | core/Plugin/Settings.php:114-117 | a registry constructed after removing all settings loads no values |
| `PluginSettings.OtherPluginsUntouched` | core/Plugin/Settings.php:106-117 | saving or removing one plugin's record does not change what another plugin loads |
| `PluginSettings.WriteSaveReload` | core/Plugin/Settings.php:106-109 | write, save, then construct a new registry: the read returns the filtered or cast value |
| `PluginSettings.RemoveAllReload` | core/Plugin/Settings.php:114-117 | remove all, then construct a new registry: every permitted read returns the default |
| `PluginSettings.Settings.constructor` | core/Plugin/Settings.php:52-58 | a new registry has no settings and holds the values stored for its plugin, or none |
| `PluginSettings.Settings.LoadSettings` | core/Plugin/Settings.php:236-243 | the values become the stored record when there is one; otherwise they stay unchanged |
| `PluginSettings.Settings.GetSettings` | core/Plugin/Settings.php:98-101 | every declared setting, once each, in declaration order, each under its own name |
| `PluginSettings.Settings.GetSettingsForCurrentUser` | core/Plugin/Settings.php:86-91 | the visible declared settings in declaration order: a setting is listed exactly when it is declared and visible |
| `PluginSettings.Settings.AddSetting` | core/Plugin/Settings.php:191-229 | on an invalid or taken name: that error, nothing changes; otherwise the completed setting is appended under its name and earlier settings keep their order |
| `PluginSettings.Settings.GetSetting` | core/Plugin/Settings.php:263-268 | the registered setting of that name, or nothing |
| `PluginSettings.Settings.CheckIsValidSetting` | core/Plugin/Settings.php:245-257 | unknown-setting error, then permission error on the registered setting, else success |
| `PluginSettings.Settings.GetSettingValue` | core/Plugin/Settings.php:129-139 | the guard's error, or the value under the passed setting's key, or its default |
| `PluginSettings.Settings.SetSettingValue` | core/Plugin/Settings.php:152-167 | on any error the values are unchanged; on success only the passed setting's key takes the filtered or cast value |
| `PluginSettings.Settings.RemoveSettingValue` | core/Plugin/Settings.php:175-182 | the entry under the setting's key is removed if present, with no check and no error |
| `PluginSettings.Settings.Save` | core/Plugin/Settings.php:106-109 | the store's record for this plugin becomes the current values; other records are unchanged |
| `PluginSettings.Settings.RemoveAllPluginSettings` | core/Plugin/Settings.php:114-117 | the store's record for this plugin is deleted; other records are unchanged |
| `PhpValues.SetType` | core/Plugin/Settings.php:163 | the `settype` call: integer/int, boolean/bool, string, array and null casts give a value of that type, with the name's case ignored; any other name leaves the value unchanged; `SetTypeIdempotent`, `SetTypeIgnoresCase`, `IntThroughStringCast` and `FormStringCasts` characterise it |
| `PhpValues.SetTypeIgnoresCase` | core/Plugin/Settings.php:163 | the type name's capitalisation does not change the cast |
| `PhpValues.AsArrayKey` | core/Plugin/Settings.php:216-221 | the key `array_key_exists` looks up: integers as themselves, canonical integer strings as integers, other strings as themselves, null as ""; booleans and arrays have no key; every key produced is one a PHP array can hold |
| `PhpValues.KeyExists` | core/Plugin/Settings.php:216-221 | `array_key_exists`: a boolean or array is never found, and an integer is found exactly under its integer key |
| `PhpValues.StringKeysAreFoundByTheirString` | core/Plugin/Settings.php:221 | because option keys are normalised as PHP stores them, a string option key is always found by that string |
| `PhpValues.IntStringRoundTrip` | core/Plugin/Settings.php:163 | reading back the decimal string of an integer gives the integer |
| `PhpValues.SetTypeIdempotent` | core/Plugin/Settings.php:163 | casting twice to the same type is the same as casting once |
| `PhpValues.IntThroughStringCast` | core/Plugin/Settings.php:163 | an integer cast to string and back to integer is unchanged |
| `PhpValues.FormStringCasts` | core/Plugin/Settings.php:163 | "0" casts to false, "1" to true, "42" to 42 and "-7" to -7 |
| `PhpValues.IntAndItsStringAreOneKey` | core/Plugin/Settings.php:216-221 | an integer and its decimal string are the same option key |

## Left out

- The option store is a map in memory (`Options.OptionStore`). The database behind it is not part of this model.
- Serialisation is the identity. The record stored for a plugin is its map of values.
- Exception messages and their translation are not modelled. Only the kind of error is kept (`PluginSettings.Error`).
- The `init` hook is not modelled, because subclasses define it. Settings are declared by calling `AddSetting` after construction.
- `setIntroduction`/`getIntroduction` and the display-only fields are not modelled (`fieldAttributes`, `introduction`, `description`, `inlineHelp`).
- How subclasses set `displayedForCurrentUser` (`SystemSetting`, `UserSetting`) is not part of this model. The flag is an input.
- `PluginSettings.Settings.AddSetting` returns the completed setting. In the source it writes type, field and validator into the caller's object. Aliasing between that object and the registered one is not modelled.
- The field-options validator is evaluated against the setting that carries it. In the source it is a closure over the registered object. The two agree when the registered setting is the one passed to `setSettingValue`.
- User validate and filter closures are abstract functions of the value. They do not receive the setting object, and any side effects they have are not modelled. A validator rejects by returning false instead of throwing. An exception thrown inside a filter is not modelled.
- A `validate` or `filter` field holding something other than a closure is ignored by the source. The model's fields can only hold closures.
- `SettingDescriptor.GetDefaultType` and `SettingDescriptor.GetDefaultField` require a name from their table. The source would read an undefined index. `PluginSettings.Settings.AddSetting` therefore requires `LookupDefined` only when both name checks pass, which is when the source reaches a lookup.
- `PhpValues.SetType`: floats and objects are not PHP values in this model, so the "float", "double" and "object" casts leave the value unchanged.
- `StringToInt` does not skip leading whitespace or read exponents. It does not saturate at the platform integer limit.
- `AsArrayKey` follows PHP 5's `array_key_exists`: booleans and arrays are never found, and null is looked up as "". The integer-key range limit is not modelled.
- Array values keep only their elements in order. Their keys are not modelled.
- `ctype_alnum` is modelled for string names in the C locale.
- Two registries saving concurrently are not modelled.
