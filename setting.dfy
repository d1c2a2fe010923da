/** The descriptor of one plugin setting (`Piwik\Settings\Setting`): its name and
    storage key, its PHP type and form field, the allowed options, the optional
    validate and filter closures, the default value and whether the current user
    may see it. The descriptor itself only holds data and answers two table
    lookups; the registry fills in its missing parts when the setting is added. */
module SettingDescriptor {
  import opened Wrappers
  import opened PhpValues

  // The type and field names, declared as constants of the registry class.
  const TYPE_INT := "integer"
  const TYPE_FLOAT := "float"
  const TYPE_STRING := "string"
  const TYPE_BOOL := "boolean"
  const TYPE_ARRAY := "array"

  const FIELD_TEXT := "text"
  const FIELD_TEXTAREA := "textarea"
  const FIELD_CHECKBOX := "checkbox"
  const FIELD_PASSWORD := "password"
  const FIELD_MULTI_SELECT := "multiselect"
  const FIELD_SINGLE_SELECT := "select"

  /** One of the five type constants. */
  predicate IsType(t: string)
  {
    t == TYPE_INT || t == TYPE_FLOAT || t == TYPE_STRING || t == TYPE_BOOL || t == TYPE_ARRAY
  }

  /** One of the six field constants. */
  predicate IsField(f: string)
  {
    f == FIELD_TEXT || f == FIELD_TEXTAREA || f == FIELD_CHECKBOX
    || f == FIELD_PASSWORD || f == FIELD_MULTI_SELECT || f == FIELD_SINGLE_SELECT
  }

  /** A validate closure: one supplied by the plugin, which accepts or rejects a
      candidate value, or the field-options check the registry installs. */
  datatype Validator =
    | UserValidator(accepts: Value -> bool)
    | FieldOptionsValidator

  /** A setting's public and protected fields. `phpType` is the source's `type`
      field (a reserved word here). `phpType` and `field` are nullable because a
      subclass may null one of them; `fieldOptions` maps each allowed
      value (as an array key) to its label. */
  datatype Setting = Setting(
    name: string,
    key: string,
    title: string,
    phpType: Option<string>,
    field: Option<string>,
    fieldOptions: Option<FieldOptions>,
    validate: Option<Validator>,
    filter: Option<Value -> Value>,
    defaultValue: Value,
    displayedForCurrentUser: bool)
  {
    function GetName(): string { name }

    function GetKey(): string { key }

    function CanBeDisplayedForCurrentUser(): bool { displayedForCurrentUser }
  }

  /** The getters return the stored fields as they are. */
  lemma GettersReturnFields(s: Setting)
    ensures s.GetName() == s.name && s.GetKey() == s.key
    ensures s.CanBeDisplayedForCurrentUser() == s.displayedForCurrentUser
  {
  }

  /** A setting as the constructor leaves it: stored under its own name, typed
      as a string shown in a text field, with no options, closures or default,
      and hidden from the current user until a subclass decides otherwise. */
  function NewSetting(name: string, title: string): (s: Setting)
    ensures s.GetName() == name && s.GetKey() == name && s.title == title
    ensures s.phpType == Some(TYPE_STRING) && s.field == Some(FIELD_TEXT)
    ensures s.fieldOptions.None? && s.validate.None? && s.filter.None?
    ensures s.defaultValue == VNull
    ensures !s.CanBeDisplayedForCurrentUser()
  {
    Setting(name, name, title, Some(TYPE_STRING), Some(FIELD_TEXT), None, None, None, VNull, false)
  }

  /** The type a field implies. Only the six field names are in the table. */
  function GetDefaultType(field: string): (t: string)
    requires IsField(field)
    ensures IsType(t) && t != TYPE_INT && t != TYPE_FLOAT
  {
    if field == FIELD_CHECKBOX then TYPE_BOOL
    else if field == FIELD_MULTI_SELECT then TYPE_ARRAY
    else TYPE_STRING
  }

  /** The field a type is shown in. Only the five type names are in the table. */
  function GetDefaultField(t: string): (f: string)
    requires IsType(t)
    ensures IsField(f) && f != FIELD_TEXTAREA && f != FIELD_PASSWORD && f != FIELD_SINGLE_SELECT
  {
    if t == TYPE_BOOL then FIELD_CHECKBOX
    else if t == TYPE_ARRAY then FIELD_MULTI_SELECT
    else FIELD_TEXT
  }

  /** The field-to-type table entry by entry. */
  lemma DefaultTypeTable()
    ensures GetDefaultType(FIELD_CHECKBOX) == TYPE_BOOL
    ensures GetDefaultType(FIELD_MULTI_SELECT) == TYPE_ARRAY
    ensures GetDefaultType(FIELD_TEXT) == TYPE_STRING
    ensures GetDefaultType(FIELD_TEXTAREA) == TYPE_STRING
    ensures GetDefaultType(FIELD_PASSWORD) == TYPE_STRING
    ensures GetDefaultType(FIELD_SINGLE_SELECT) == TYPE_STRING
  {
  }

  /** The type-to-field table entry by entry. */
  lemma DefaultFieldTable()
    ensures GetDefaultField(TYPE_BOOL) == FIELD_CHECKBOX
    ensures GetDefaultField(TYPE_ARRAY) == FIELD_MULTI_SELECT
    ensures GetDefaultField(TYPE_INT) == FIELD_TEXT
    ensures GetDefaultField(TYPE_FLOAT) == FIELD_TEXT
    ensures GetDefaultField(TYPE_STRING) == FIELD_TEXT
  {
  }

  /** Going from a type to its field and back returns the type, except that the
      numeric types come back as string because they share the text field. */
  lemma TypeFieldTypeRoundTrip(t: string)
    requires IsType(t)
    ensures GetDefaultType(GetDefaultField(t)) == (if t == TYPE_INT || t == TYPE_FLOAT then TYPE_STRING else t)
  {
  }

  /** Going from a field to its type and back returns checkbox and multiselect
      unchanged and every string-typed field as the plain text field. */
  lemma FieldTypeFieldRoundTrip(f: string)
    requires IsField(f)
    ensures GetDefaultField(GetDefaultType(f)) == (if f == FIELD_CHECKBOX || f == FIELD_MULTI_SELECT then f else FIELD_TEXT)
  {
  }
}
