/** src/Settings.php: the plugin's settings fields, their registration by
    id, the per-type sanitising of stored values and the typed lookup
    `get` that the visit logic reads its configuration through. */
module PluginSettings {
  import opened Wrappers
  import opened Php

  /** The prefix of every option the settings store under: TOKEN . '_'. */
  const BASE := "visitnotifications_"

  /** The 'type' entry of a field definition. Other(name) stands for any
      type string sanitize_field has no case for. */
  datatype FieldType =
    | Text | Url | Email | Password | Number | TextSecret | Textarea | Checkbox
    | Radio | Select | CheckboxMulti | SelectMulti | Image | Color | StringList
    | Editor | Code | Group | Other(name: string)

  /** A field definition: its id, type, optional 'default', the 'options'
      of a select/radio/multi field (key => label) and, for a group, the
      nested 'fields'. Labels and descriptions only feed the admin page. */
  datatype Field = Field(
    id: string,
    ftype: FieldType,
    default: Option<Value>,
    options: seq<Entry>,
    fields: seq<Field>)

  /** A top-level entry of $this->settings: a named section of fields. */
  datatype Section = Section(name: string, fields: seq<Field>)

  /** The WordPress sanitisers some field types defer to. */
  datatype WpSanitizers = WpSanitizers(
    text: Value -> Value,       // sanitize_text_field
    url: Value -> Value,        // sanitize_url
    email: Value -> Value,      // is_email
    textarea: Value -> Value,   // sanitize_textarea_field
    image: Value -> Value,      // the comma-separated attachment id list
    color: Value -> Value,      // sanitize_hex_color
    stringList: Value -> Value) // array_map('sanitize_text_field', ...)

  // ---------------------------------------------------------------------------
  // The plugin's own fields (settings_fields)

  const GraceContextOptions: seq<Entry> := [
    Entry(StrKey("site"), Str("Site Wide")),
    Entry(StrKey("post"), Str("Local to Post"))]

  const GraceContextField := Field("ip_grace_period_context", Select, Some(Str("site")), GraceContextOptions, [])
  const GraceDurationField := Field("ip_grace_period_duration", Number, Some(Int(60 * 5)), [], [])

  function PageFields(): seq<Field> {
    [ Field("enable_notifications", Checkbox, Some(Str("on")), [], []),
      Field("enable_logged_in_users", Checkbox, Some(Str("on")), [], []),
      Field("disable_crawlers", Checkbox, Some(Str("on")), [], []),
      Field("ip_grace_period", Checkbox, Some(Str("off")), [], []),
      Field("ip_grace_period_group", Group, None, [], [GraceContextField, GraceDurationField]) ]
  }

  function SettingsFields(): seq<Section> {
    [Section("page", PageFields())]
  }

  // ---------------------------------------------------------------------------
  // Nested field definitions

  /** The non-group fields reached by entering groups depth first, in the
      order init_settings_group visits them. */
  function Leaves(fields: seq<Field>): (r: seq<Field>)
    ensures forall f :: f in r ==> f.ftype != Group
  {
    if fields == [] then [] else Leaves(fields[..|fields| - 1]) + LeavesOf(fields[|fields| - 1])
  }

  function LeavesOf(f: Field): (r: seq<Field>)
    ensures forall g :: g in r ==> g.ftype != Group
  {
    if f.ftype == Group then Leaves(f.fields) else [f]
  }

  /** Independent description of nesting: f sits in fields, or inside a group there, at any depth. */
  predicate Reaches(fields: seq<Field>, f: Field) {
    exists i :: 0 <= i < |fields| && (fields[i] == f || (fields[i].ftype == Group && Reaches(fields[i].fields, f)))
  }

  function SectionLeaves(sections: seq<Section>): seq<Field> {
    if sections == [] then []
    else SectionLeaves(sections[..|sections| - 1]) + Leaves(sections[|sections| - 1].fields)
  }

  /** Writes `$ids[$f['id']] = $f` for each field in turn; a later field wins on a shared id. */
  function Store(ids: map<string, Field>, fields: seq<Field>): map<string, Field> {
    if fields == [] then ids
    else
      var last := fields[|fields| - 1];
      Store(ids, fields[..|fields| - 1])[last.id := last]
  }

  /** Number of field definitions, groups and their contents included. */
  function Size(fields: seq<Field>): nat {
    if fields == [] then 0 else Size(fields[..|fields| - 1]) + 1 + Size(fields[|fields| - 1].fields)
  }

  /** array_filter($fields, fn ($f) => $f['type'] !== 'group') */
  function NonGroups(fields: seq<Field>): (r: seq<Field>)
    ensures forall f :: f in r <==> f in fields && f.ftype != Group
  {
    if fields == [] then []
    else
      var last := fields[|fields| - 1];
      NonGroups(fields[..|fields| - 1]) + (if last.ftype != Group then [last] else [])
  }

  /** array_merge(...array_column(<the groups>, 'fields')) */
  function GroupContents(fields: seq<Field>): seq<Field> {
    if fields == [] then []
    else
      var last := fields[|fields| - 1];
      GroupContents(fields[..|fields| - 1]) + (if last.ftype == Group then last.fields else [])
  }

  lemma {:induction false} SizeAppend(a: seq<Field>, b: seq<Field>)
    ensures Size(a + b) == Size(a) + Size(b)
    decreases |b|
  {
    if b == [] {
      assert a + b == a;
    } else {
      assert (a + b)[..|a + b| - 1] == a + b[..|b| - 1];
      assert (a + b)[|a + b| - 1] == b[|b| - 1];
      SizeAppend(a, b[..|b| - 1]);
    }
  }

  lemma {:induction false} GroupContentsSmaller(fields: seq<Field>)
    ensures Size(GroupContents(fields)) + |fields| <= Size(fields)
  {
    if fields != [] {
      var init, last := fields[..|fields| - 1], fields[|fields| - 1];
      GroupContentsSmaller(init);
      SizeAppend(GroupContents(init), if last.ftype == Group then last.fields else []);
    }
  }

  /** flatten_groups: the top-level non-group fields, then the flattened
      contents of all groups, level by level. */
  function FlattenGroups(fields: seq<Field>): (r: seq<Field>)
    ensures forall f :: f in r ==> f.ftype != Group
    decreases Size(fields)
  {
    var groups := GroupContents(fields);
    if groups != [] then
      GroupContentsSmaller(fields);
      NonGroups(fields) + FlattenGroups(groups)
    else NonGroups(fields)
  }

  // ---------------------------------------------------------------------------
  // Sanitising

  /** sanitize_field: coerce a stored or submitted value to its field's type. */
  function SanitizeField(data: Value, field: Field, wp: WpSanitizers): (r: Result<Value, Fault>)
    ensures r.Failure? <==> field.ftype == Group || field.ftype.Other?
    ensures r.Failure? ==> r.error == InputTypeNotSanitized
    ensures field.ftype == Checkbox ==> r == Success(Str("on")) || r == Success(Str(""))
    ensures field.ftype == Number && IntOrAbsent(field.default) ==> r.Success? && r.value.Int?
    ensures field.ftype == Select || field.ftype == Radio ==>
      r == Success(Arr(field.options)) || r == Success(field.default.GetOr(Null))
    ensures field.ftype == Password || field.ftype == Editor || field.ftype == Code ==> r == Success(data)
  {
    match field.ftype
    case Text => Success(wp.text(data))
    case Url => Success(wp.url(data))
    case Email => Success(wp.email(data))
    case Password => Success(data)
    case Number => Success(if IsNumeric(data) then Int(IntVal(data)) else field.default.GetOr(Int(0)))
    case TextSecret => Success(wp.text(data))
    case Textarea => Success(wp.textarea(data))
    case Checkbox => Success(if data == Str("on") then Str("on") else Str(""))
    case Radio | Select =>
      // tested against the option LABELS, and on success the whole options array comes back
      Success(if InArray(data, field.options) then Arr(field.options) else field.default.GetOr(Null))
    case CheckboxMulti | SelectMulti =>
      var items := if data.Arr? then data.entries else [Entry(IntKey(0), data)];
      Success(Arr(KeepIn(items, field.options)))
    case Image => Success(wp.image(data))
    case Color => Success(wp.color(data))
    case StringList => Success(wp.stringList(data))
    case Editor | Code => Success(data)
    case Group | Other(_) => Failure(InputTypeNotSanitized)
  }

  // ---------------------------------------------------------------------------
  // Typed lookup

  /** The fallback `get` hands to get_option: the caller's default, or the
      field's declared default (false when it has none) when the caller
      passed false. */
  function Fallback(field: Field, default: Value): Value {
    if default == Bool(false) then field.default.GetOr(Bool(false)) else default
  }

  /** get_option(BASE . $name, $fallback) on the option store. */
  function StoredOption(options: map<string, Value>, name: string, fallback: Value): Value {
    if BASE + name in options then options[BASE + name] else fallback
  }

  /** get($name, $default, $format) with `ids` standing for $this->settings_ids
      and `options` for the site's option store. */
  function Get(ids: map<string, Field>, wp: WpSanitizers, options: map<string, Value>,
               name: string, default: Value, format: bool): (r: Result<Value, Fault>)
    ensures name !in ids <==> r == Failure(UnknownOption(name))
    ensures name in ids && !format ==>
      r == SanitizeField(StoredOption(options, name, Fallback(ids[name], default)), ids[name], wp)
    ensures name in ids ==>
      (r.Failure? <==> ids[name].ftype == Group || ids[name].ftype.Other?)
      && (r.Failure? ==> r.error == InputTypeNotSanitized)
    ensures name in ids && format && ids[name].ftype == Checkbox ==>
      r == Success(Bool(StoredOption(options, name, Fallback(ids[name], default)) == Str("on")))
    ensures name in ids && format && ids[name].ftype == Number && IntOrAbsent(ids[name].default) ==>
      r.Success? && r.value.Int?
  {
    if name !in ids then Failure(UnknownOption(name))
    else
      var field := ids[name];
      var fallback := Fallback(field, default);
      var option :- SanitizeField(StoredOption(options, name, fallback), field, wp);
      if !format then Success(option)
      else if field.ftype == Checkbox then Success(Bool(option == Str("on")))
      else if field.ftype == Number then Success(if IsNumeric(option) then Int(IntVal(option)) else fallback)
      else Success(option)
  }

  predicate IntOrAbsent(d: Option<Value>) {
    d.None? || d.value.Int?
  }

  // ---------------------------------------------------------------------------
  // The settings object

  class Settings {
    /** $this->settings: the sections of field definitions. */
    var settings: seq<Section>
    /** $this->settings_ids: every registered non-group field by id. */
    var settingsIds: map<string, Field>
    const wp: WpSanitizers

    constructor (wp: WpSanitizers)
      ensures settings == [] && settingsIds == map[]
    {
      settings := [];
      settingsIds := map[];
      this.wp := wp;
    }

    /** init_settings_group: register every field of a group, entering nested groups. */
    method InitSettingsGroup(fields: seq<Field>)
      modifies this
      ensures settingsIds == Store(old(settingsIds), Leaves(fields))
      ensures settings == old(settings)
      decreases fields
    {
      for i := 0 to |fields|
        invariant settingsIds == Store(old(settingsIds), Leaves(fields[..i]))
        invariant settings == old(settings)
      {
        var field := fields[i];
        assert fields[..i + 1][..i] == fields[..i];
        StoreAppend(old(settingsIds), Leaves(fields[..i]), LeavesOf(field));
        if field.ftype == Group {
          InitSettingsGroup(field.fields);
        } else {
          settingsIds := settingsIds[field.id := field];
        }
      }
      assert fields[..|fields|] == fields;
    }

    /** init_settings: install the plugin's sections and register their fields. */
    method InitSettings()
      modifies this
      ensures settings == SettingsFields()
      ensures settingsIds == Store(old(settingsIds), SectionLeaves(SettingsFields()))
    {
      settings := SettingsFields();
      RegisterSections(settings);
    }

    /** The loop of init_settings: each section's fields in turn. */
    method RegisterSections(sections: seq<Section>)
      modifies this
      ensures settingsIds == Store(old(settingsIds), SectionLeaves(sections))
      ensures settings == old(settings)
    {
      for i := 0 to |sections|
        invariant settingsIds == Store(old(settingsIds), SectionLeaves(sections[..i]))
        invariant settings == old(settings)
      {
        assert sections[..i + 1][..i] == sections[..i];
        StoreAppend(old(settingsIds), SectionLeaves(sections[..i]), Leaves(sections[i].fields));
        InitSettingsGroup(sections[i].fields);
      }
      assert sections[..|sections|] == sections;
    }
  }

  lemma {:induction false} StoreAppend(ids: map<string, Field>, a: seq<Field>, b: seq<Field>)
    ensures Store(ids, a + b) == Store(Store(ids, a), b)
    decreases |b|
  {
    if b == [] {
      assert a + b == a;
    } else {
      assert (a + b)[..|a + b| - 1] == a + b[..|b| - 1];
      assert (a + b)[|a + b| - 1] == b[|b| - 1];
      StoreAppend(ids, a, b[..|b| - 1]);
    }
  }
}
