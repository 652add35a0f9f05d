/** What src/Settings.php promises about its fields: how values are coerced,
    how nested groups are flattened and registered, and the quirk of the
    grace-scope select. */
module SettingsProperties {
  import opened Wrappers
  import opened Php
  import opened PluginSettings

  // ---------------------------------------------------------------------------
  // sanitize_field

  /** A checkbox reads 'on' exactly when the stored value is 'on', and '' otherwise. */
  lemma CheckboxIsOnOrEmpty(data: Value, field: Field, wp: WpSanitizers)
    requires field.ftype == Checkbox
    ensures SanitizeField(data, field, wp) == Success(Str("on")) <==> data == Str("on")
    ensures SanitizeField(data, field, wp) in {Success(Str("on")), Success(Str(""))}
  {
  }

  /** A number field yields intval of numeric input, and otherwise its
      default, or 0 when it has none. */
  lemma NumberIsIntvalOrDefault(data: Value, field: Field, wp: WpSanitizers)
    requires field.ftype == Number
    ensures IsNumeric(data) ==> SanitizeField(data, field, wp) == Success(Int(IntVal(data)))
    ensures !IsNumeric(data) && field.default.Some? ==> SanitizeField(data, field, wp) == Success(field.default.value)
    ensures !IsNumeric(data) && field.default.None? ==> SanitizeField(data, field, wp) == Success(Int(0))
  {
  }

  /** A select or radio value that is not one of the option LABELS gives the
      field's default; one that is gives back the whole options array. */
  lemma SelectTestsLabels(data: Value, field: Field, wp: WpSanitizers)
    requires field.ftype == Select || field.ftype == Radio
    ensures (exists x :: x in field.options && x.val == data) ==> SanitizeField(data, field, wp) == Success(Arr(field.options))
    ensures (forall x :: x in field.options ==> x.val != data) ==> SanitizeField(data, field, wp) == Success(field.default.GetOr(Null))
  {
  }

  /** A multi-value field wraps a scalar into a one-element list and keeps
      exactly the elements that are option values, keys and order kept. */
  lemma MultiKeepsOptionValues(data: Value, field: Field, wp: WpSanitizers)
    requires field.ftype == CheckboxMulti || field.ftype == SelectMulti
    ensures var r := SanitizeField(data, field, wp);
      var items := if data.Arr? then data.entries else [Entry(IntKey(0), data)];
      r.Success? && r.value.Arr?
      && (forall x :: x in r.value.entries <==> x in items && InArray(x.val, field.options))
  {
  }

  // ---------------------------------------------------------------------------
  // get

  /** Passing false as the default makes the field's own default the value
      get_option falls back to. */
  lemma FalseDefaultMeansFieldDefault(ids: map<string, Field>, options: map<string, Value>, name: string)
    requires name in ids && BASE + name !in options
    ensures StoredOption(options, name, Fallback(ids[name], Bool(false))) == ids[name].default.GetOr(Bool(false))
  {
  }

  /** The grace scope select: its stored key 'post' is not a label, so it
      reads back as the default 'site'; only a stored label leaves 'site',
      and then as the whole options array. 'post' never comes out. */
  lemma {:induction false} GraceContextNeverPost(ids: map<string, Field>, wp: WpSanitizers, options: map<string, Value>)
    requires "ip_grace_period_context" in ids && ids["ip_grace_period_context"] == GraceContextField
    ensures var r := Get(ids, wp, options, "ip_grace_period_context", Bool(false), true);
      r == Success(Str("site")) || r == Success(Arr(GraceContextOptions))
    ensures Get(ids, wp, options[BASE + "ip_grace_period_context" := Str("post")], "ip_grace_period_context", Bool(false), true)
      == Success(Str("site"))
  {
    NotALabel(Str("post"));
  }

  lemma NotALabel(v: Value)
    requires v != Str("Site Wide") && v != Str("Local to Post")
    ensures !InArray(v, GraceContextOptions)
  {
    forall x | x in GraceContextOptions
      ensures x.val != v
    {
      assert x == GraceContextOptions[0] || x == GraceContextOptions[1];
    }
  }

  // ---------------------------------------------------------------------------
  // Nested groups

  lemma {:induction false} LeavesAppend(a: seq<Field>, b: seq<Field>)
    ensures Leaves(a + b) == Leaves(a) + Leaves(b)
    decreases |b|
  {
    if b == [] {
      assert a + b == a;
    } else {
      var init, last := b[..|b| - 1], b[|b| - 1];
      assert (a + b)[..|a + b| - 1] == a + init;
      assert (a + b)[|a + b| - 1] == last;
      LeavesAppend(a, init);
      calc {
        Leaves(a + b);
        Leaves(a + init) + LeavesOf(last);
        (Leaves(a) + Leaves(init)) + LeavesOf(last);
        Leaves(a) + (Leaves(init) + LeavesOf(last));
        Leaves(a) + Leaves(b);
      }
    }
  }

  /** One level of flatten_groups: the leaves are the top-level non-groups
      plus the leaves of the groups' contents. */
  lemma {:induction false} LeavesByLevel(fields: seq<Field>)
    ensures multiset(Leaves(fields)) == multiset(NonGroups(fields)) + multiset(Leaves(GroupContents(fields)))
  {
    if fields != [] {
      var init, last := fields[..|fields| - 1], fields[|fields| - 1];
      LeavesByLevel(init);
      LeavesAppend(GroupContents(init), if last.ftype == Group then last.fields else []);
    }
  }

  /** flatten_groups keeps every nested field exactly once and returns no
      group; the top-level non-group fields come first. */
  lemma {:induction false} FlattenGroupsIsLeaves(fields: seq<Field>)
    ensures multiset(FlattenGroups(fields)) == multiset(Leaves(fields))
    ensures forall f :: f in FlattenGroups(fields) ==> f.ftype != Group
    ensures FlattenGroups(fields)[..|NonGroups(fields)|] == NonGroups(fields)
    decreases Size(fields)
  {
    LeavesByLevel(fields);
    var groups := GroupContents(fields);
    if groups != [] {
      GroupContentsSmaller(fields);
      FlattenGroupsIsLeaves(groups);
    }
  }

  lemma {:induction false} ReachesSnoc(init: seq<Field>, last: Field, f: Field)
    ensures Reaches(init + [last], f) <==>
      Reaches(init, f) || last == f || (last.ftype == Group && Reaches(last.fields, f))
  {
    var fs := init + [last];
    if Reaches(fs, f) {
      var i :| 0 <= i < |fs| && (fs[i] == f || (fs[i].ftype == Group && Reaches(fs[i].fields, f)));
      if i < |init| {
        assert fs[i] == init[i];
      }
    }
    if Reaches(init, f) {
      var i :| 0 <= i < |init| && (init[i] == f || (init[i].ftype == Group && Reaches(init[i].fields, f)));
      assert fs[i] == init[i];
    }
    if last == f || (last.ftype == Group && Reaches(last.fields, f)) {
      assert fs[|init|] == last;
    }
  }

  /** The leaves are exactly the non-group fields found at any depth. */
  lemma {:induction false} LeavesAreReachedNonGroups(fields: seq<Field>, f: Field)
    ensures f in Leaves(fields) <==> Reaches(fields, f) && f.ftype != Group
    decreases Size(fields)
  {
    if fields == [] {
    } else {
      var init, last := fields[..|fields| - 1], fields[|fields| - 1];
      assert fields == init + [last];
      ReachesSnoc(init, last, f);
      LeavesAreReachedNonGroups(init, f);
      if last.ftype == Group {
        LeavesAreReachedNonGroups(last.fields, f);
      }
    }
  }

  // ---------------------------------------------------------------------------
  // Registration

  /** Registering stores every given field under its id and keeps earlier
      entries whose id no field uses. */
  lemma {:induction false} StoreHoldsEveryId(ids: map<string, Field>, fields: seq<Field>)
    ensures forall f :: f in fields ==> f.id in Store(ids, fields)
    ensures forall k :: k in Store(ids, fields) ==> k in ids || exists f :: f in fields && f.id == k
    ensures forall k :: k in Store(ids, fields) ==> Store(ids, fields)[k] in fields || (k in ids && Store(ids, fields)[k] == ids[k])
  {
    if fields != [] {
      var init, last := fields[..|fields| - 1], fields[|fields| - 1];
      assert fields == init + [last];
      StoreHoldsEveryId(ids, init);
    }
  }

  /** After init_settings_group, every non-group field at any depth has its
      id registered, and a registry without groups still holds none. */
  lemma RegisteredAtAnyDepth(ids: map<string, Field>, fields: seq<Field>)
    ensures forall f :: Reaches(fields, f) && f.ftype != Group ==> f.id in Store(ids, Leaves(fields))
    ensures (forall k :: k in ids ==> ids[k].ftype != Group) ==>
      forall k :: k in Store(ids, Leaves(fields)) ==> Store(ids, Leaves(fields))[k].ftype != Group
  {
    StoreHoldsEveryId(ids, Leaves(fields));
    forall f | Reaches(fields, f) && f.ftype != Group
      ensures f.id in Store(ids, Leaves(fields))
    {
      LeavesAreReachedNonGroups(fields, f);
    }
  }

  lemma LeavesOne(f: Field)
    ensures Leaves([f]) == LeavesOf(f)
  {
    assert [f][..0] == [];
  }

  /** The plugin's settings in registration order: the four checkboxes,
      then the two fields of the grace-period group. */
  lemma {:induction false} PageLeaves()
    ensures Leaves(PageFields()) ==
      [PageFields()[0], PageFields()[1], PageFields()[2], PageFields()[3], GraceContextField, GraceDurationField]
  {
    ShapeLeaves(PageFields());
  }

  /** Four plain fields and a group of two plain fields flatten to the six plain fields. */
  lemma {:induction false} ShapeLeaves(p: seq<Field>)
    requires |p| == 5 && (forall i :: 0 <= i < 4 ==> p[i].ftype != Group)
    requires p[4].ftype == Group && |p[4].fields| == 2
    requires p[4].fields[0].ftype != Group && p[4].fields[1].ftype != Group
    ensures Leaves(p) == p[..4] + p[4].fields
  {
    var init := p[..4];
    assert p == init + [p[4]];
    LeavesAppend(init, [p[4]]);
    LeavesOne(p[4]);
    PlainLeaves(init);
    PlainLeaves(p[4].fields);
  }

  /** Without groups there is nothing to flatten. */
  lemma {:induction false} PlainLeaves(fields: seq<Field>)
    requires forall f :: f in fields ==> f.ftype != Group
    ensures Leaves(fields) == fields
  {
    if fields != [] {
      var init := fields[..|fields| - 1];
      PlainLeaves(init);
      assert fields == init + [fields[|fields| - 1]];
    }
  }

  lemma {:induction false} PluginLeaves()
    ensures SectionLeaves(SettingsFields()) ==
      [PageFields()[0], PageFields()[1], PageFields()[2], PageFields()[3], GraceContextField, GraceDurationField]
  {
    PageLeaves();
    assert SettingsFields()[..0] == [];
  }

  /** The plugin's own registry after init_settings: the six settings under their ids. */
  lemma {:induction false} PluginRegistry()
    ensures Store(map[], SectionLeaves(SettingsFields())) == map[
      "enable_notifications" := PageFields()[0],
      "enable_logged_in_users" := PageFields()[1],
      "disable_crawlers" := PageFields()[2],
      "ip_grace_period" := PageFields()[3],
      "ip_grace_period_context" := GraceContextField,
      "ip_grace_period_duration" := GraceDurationField]
  {
    PluginLeaves();
    var p := PageFields();
    var all := [p[0], p[1], p[2], p[3], GraceContextField, GraceDurationField];
    assert all == [p[0], p[1], p[2], p[3], GraceContextField] + [GraceDurationField];
    StoreAppend(map[], [p[0], p[1], p[2], p[3], GraceContextField], [GraceDurationField]);
    assert [p[0], p[1], p[2], p[3], GraceContextField] == [p[0], p[1], p[2], p[3]] + [GraceContextField];
    StoreAppend(map[], [p[0], p[1], p[2], p[3]], [GraceContextField]);
    assert [p[0], p[1], p[2], p[3]] == [p[0], p[1], p[2]] + [p[3]];
    StoreAppend(map[], [p[0], p[1], p[2]], [p[3]]);
    assert [p[0], p[1], p[2]] == [p[0], p[1]] + [p[2]];
    StoreAppend(map[], [p[0], p[1]], [p[2]]);
    assert [p[0], p[1]] == [p[0]] + [p[1]];
    StoreAppend(map[], [p[0]], [p[1]]);
    assert [p[0]][..0] == [];
    assert [p[1]][..0] == [] && [p[2]][..0] == [] && [p[3]][..0] == [];
    assert [GraceContextField][..0] == [] && [GraceDurationField][..0] == [];
  }
}
