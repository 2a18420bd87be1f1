/**
 * The company dashboard (src/pages/DashboardPage.tsx): every enabled
 * automation instance of the company is joined with its template, each of
 * the template's `dashboardWidgets` gets a data map filled from its data
 * sources, the widgets of all instances are concatenated in snapshot order,
 * and the page groups them by automation name and instance id.
 */
module Dashboard {
  import opened Results
  import opened JsStrings
  import opened JsValues
  import opened Store
  import FirestoreService

  // ---------------------------------------------------------------------------
  // Dotted-path lookup
  // ---------------------------------------------------------------------------

  /** One step of the lookup: `obj && typeof obj === "object" ? obj[key] : undefined`. */
  function Step(obj: Value, key: string): Value {
    if Truthy(obj) && IsObject(obj) then Prop(obj, key) else Undef
  }

  /** `keys.reduce(Step, start)`: the steps applied from the first key to the last. */
  function ResolvePath(start: Value, keys: seq<string>): Value
    decreases |keys|
  {
    if keys == [] then start
    else Step(ResolvePath(start, keys[..|keys| - 1]), keys[|keys| - 1])
  }

  /**
   * The same lookup read from the front: descend into the first key while the
   * current value is an object; a non-object before the path is used up ends
   * the lookup with `undefined`.
   */
  function Descend(v: Value, keys: seq<string>): Value
    decreases |keys|
  {
    if keys == [] then v
    else if IsObject(v) then Descend(Prop(v, keys[0]), keys[1..])
    else Undef
  }

  /** Looking up `a` and then `b` is looking up the joined path. */
  lemma {:induction false} ResolvePathAppend(v: Value, a: seq<string>, b: seq<string>)
    ensures ResolvePath(v, a + b) == ResolvePath(ResolvePath(v, a), b)
    decreases |b|
  {
    if b == [] {
      assert a + b == a;
    } else {
      var b' := b[..|b| - 1];
      assert (a + b)[..|a + b| - 1] == a + b';
      assert (a + b)[|a + b| - 1] == b[|b| - 1];
      ResolvePathAppend(v, a, b');
    }
  }

  /** Once the lookup has produced `undefined` it stays `undefined`. */
  lemma {:induction false} UndefinedStays(keys: seq<string>)
    ensures ResolvePath(Undef, keys) == Undef
    decreases |keys|
  {
    if keys != [] {
      UndefinedStays(keys[..|keys| - 1]);
    }
  }

  /** The reduce and the front-first descent agree on every value and path. */
  lemma {:induction false} ResolveIsDescend(v: Value, keys: seq<string>)
    ensures ResolvePath(v, keys) == Descend(v, keys)
    decreases |keys|
  {
    if keys != [] {
      var rest := keys[1..];
      assert keys == [keys[0]] + rest;
      ResolvePathAppend(v, [keys[0]], rest);
      assert ResolvePath(v, [keys[0]]) == Step(v, keys[0]) by {
        assert [keys[0]][..0] == [];
      }
      if IsObject(v) {
        ResolveIsDescend(Prop(v, keys[0]), rest);
      } else {
        UndefinedStays(rest);
      }
    }
  }

  /** A lookup that meets a non-object (null, a number, a string, ...) before its last key gives `undefined`. */
  lemma NonObjectGivesUndefined(v: Value, keys: seq<string>)
    requires keys != [] && !IsObject(v)
    ensures ResolvePath(v, keys) == Undef
  {
    ResolveIsDescend(v, keys);
  }

  /** Through nested plain objects, a dotted path reads the nested field. */
  lemma NestedFieldRead(outer: map<string, Value>, k1: string, inner: map<string, Value>, k2: string)
    requires k1 in outer && outer[k1] == Obj(inner)
    ensures ResolvePath(Obj(outer), [k1, k2]) == Get(inner, k2)
  {
    ResolveIsDescend(Obj(outer), [k1, k2]);
    assert [k1, k2][1..] == [k2];
    assert [k2][1..] == [];
    assert Descend(Obj(inner), [k2]) == Descend(Get(inner, k2), []);
  }

  // ---------------------------------------------------------------------------
  // Data sources
  // ---------------------------------------------------------------------------

  /**
   * Why populating a widget stopped: a TypeError thrown by the page's own
   * code, or a rejected read of a template document.
   */
  datatype Failure = TypeError | ReadFailed(message: string)

  /**
   * The value a data source reads before its default applies: the dotted
   * `sourcePath` looked up in the instance for an instance-specific source,
   * `undefined` otherwise or when the path is null or undefined. A path that
   * is neither a string nor nullish has no `split` and throws.
   */
  function RawSourceValue(ds: Value, instance: Value): (r: Result<Value, Failure>)
    ensures r.Err? <==> Truthy(Prop(ds, "instanceSpecific")) && !IsNullish(Prop(ds, "sourcePath"))
                        && !Prop(ds, "sourcePath").Str?
    ensures !Truthy(Prop(ds, "instanceSpecific")) ==> r == Ok(Undef)
    ensures Truthy(Prop(ds, "instanceSpecific")) && Prop(ds, "sourcePath").Str? ==>
              r == Ok(Descend(instance, Split(Prop(ds, "sourcePath").s, ".")))
  {
    if !Truthy(Prop(ds, "instanceSpecific")) then Ok(Undef)
    else match Prop(ds, "sourcePath")
      case Undef => Ok(Undef)
      case Null => Ok(Undef)
      case Str(p) =>
        var keys := Split(p, ".");
        ResolveIsDescend(instance, keys);
        Ok(ResolvePath(instance, keys))
      case _ => Err(TypeError)
  }

  /**
   * The entry a data source writes into the widget's data map: the key is the
   * source's `sourceName` as a property key; the value is the raw value, the
   * `defaultValue` when that is `undefined`, and a timestamp of a `"datetime"`
   * source is shown through `formatDateTime` (the page's `pt-BR` locale
   * formatting). A null or undefined source throws on its first property read.
   */
  function SourceEntry(ds: Value, instance: Value, formatDateTime: int -> string): (r: Result<(string, Value), Failure>)
    ensures IsNullish(ds) ==> r == Err(TypeError)
    ensures !IsNullish(ds) ==> (r.Ok? <==> RawSourceValue(ds, instance).Ok?)
    ensures r.Ok? ==> r.value.0 == ToJsString(Prop(ds, "sourceName"))
  {
    if IsNullish(ds) then Err(TypeError)
    else
      var raw :- RawSourceValue(ds, instance);
      var value := if raw.Undef? then Prop(ds, "defaultValue") else raw;
      var shown := if Prop(ds, "format") == Str("datetime") && value.Time? then Str(formatDateTime(value.millis)) else value;
      Ok((ToJsString(Prop(ds, "sourceName")), shown))
  }

  /** Only `undefined` falls back to the default: null, `false`, `0` and `""` found at the path are kept. */
  lemma FoundValueIsKept(ds: Value, instance: Value, formatDateTime: int -> string)
    requires !IsNullish(ds) && Truthy(Prop(ds, "instanceSpecific")) && Prop(ds, "sourcePath").Str?
    requires var found := Descend(instance, Split(Prop(ds, "sourcePath").s, "."));
             !found.Undef? && !found.Time?
    ensures SourceEntry(ds, instance, formatDateTime).Ok?
    ensures SourceEntry(ds, instance, formatDateTime).value.1 == Descend(instance, Split(Prop(ds, "sourcePath").s, "."))
  {
  }

  /** A path that finds nothing, and a source that is not instance-specific, show the default. */
  lemma MissingValueUsesDefault(ds: Value, instance: Value, formatDateTime: int -> string)
    requires !IsNullish(ds) && !Prop(ds, "defaultValue").Time?
    requires RawSourceValue(ds, instance) == Ok(Undef)
    ensures SourceEntry(ds, instance, formatDateTime) == Ok((ToJsString(Prop(ds, "sourceName")), Prop(ds, "defaultValue")))
  {
  }

  /** A timestamp reaching a `"datetime"` source is replaced by its formatted text; any other format keeps it. */
  lemma DatetimeFormatting(ds: Value, instance: Value, formatDateTime: int -> string, ms: int)
    requires !IsNullish(ds) && RawSourceValue(ds, instance) == Ok(Time(ms))
    ensures SourceEntry(ds, instance, formatDateTime).value.1
            == if Prop(ds, "format") == Str("datetime") then Str(formatDateTime(ms)) else Time(ms)
  {
  }

  /**
   * `widgetRenderData[key] = value` for each entry in turn: every key gets
   * the value of its last entry.
   */
  function DataMap(entries: seq<(string, Value)>): (m: map<string, Value>)
    ensures m.Keys == set i | 0 <= i < |entries| :: entries[i].0
    ensures forall i :: (0 <= i < |entries| && forall j :: i < j < |entries| ==> entries[j].0 != entries[i].0)
                        ==> m[entries[i].0] == entries[i].1
    decreases |entries|
  {
    if entries == [] then map[]
    else
      var init := entries[..|entries| - 1];
      var last := entries[|entries| - 1];
      var m := DataMap(init)[last.0 := last.1];
      assert forall i :: 0 <= i < |init| ==> init[i] == entries[i];
      m
  }

  /** A later data source with the same name overwrites an earlier one. */
  lemma LaterSourceWins(entries: seq<(string, Value)>, k: string, v: Value, w: Value)
    ensures DataMap(entries + [(k, v)] + [(k, w)])[k] == w
  {
    var e := entries + [(k, v)] + [(k, w)];
    assert e[|e| - 1] == (k, w);
  }

  // ---------------------------------------------------------------------------
  // Widgets of one instance
  // ---------------------------------------------------------------------------

  /** A widget ready to render, with the instance id and template name it came from. */
  datatype Widget = Widget(config: Value, data: map<string, Value>, instanceId: Value, automationName: Value)

  /** The data sources of a widget configuration; none when `dataSources` is not an array. */
  function Sources(config: Value): seq<Value> {
    match Prop(config, "dataSources")
    case Arr(items) => items
    case _ => []
  }

  /** The key a data source writes under. */
  function SourceName(ds: Value): string {
    ToJsString(Prop(ds, "sourceName"))
  }

  /** No later source of the list writes under the same key as source `i`. */
  predicate LastOfItsName(sources: seq<Value>, i: int)
    requires 0 <= i < |sources|
  {
    forall j :: i < j < |sources| ==> SourceName(sources[j]) != SourceName(sources[i])
  }

  /** The entries of a list of data sources, or the failure of the first that throws. */
  function SourceEntries(sources: seq<Value>, instance: Record, formatDateTime: int -> string)
    : (r: Result<seq<(string, Value)>, Failure>)
    ensures r.Ok? <==> forall i :: 0 <= i < |sources| ==> SourceEntry(sources[i], Obj(instance), formatDateTime).Ok?
    ensures r.Ok? ==> |r.value| == |sources|
                      && forall i :: 0 <= i < |sources| ==> SourceEntry(sources[i], Obj(instance), formatDateTime) == Ok(r.value[i])
  {
    var rs := seq(|sources|, i requires 0 <= i < |sources| => SourceEntry(sources[i], Obj(instance), formatDateTime));
    assert forall i :: 0 <= i < |sources| ==> rs[i] == SourceEntry(sources[i], Obj(instance), formatDateTime);
    AllOk(rs)
  }

  /**
   * The data map built from the entries of a list of sources has one key per
   * source name, and under each name the entry of the last source with it.
   */
  lemma EntriesData(sources: seq<Value>, instance: Record, formatDateTime: int -> string, entries: seq<(string, Value)>)
    requires |entries| == |sources|
    requires forall i :: 0 <= i < |sources| ==> SourceEntry(sources[i], Obj(instance), formatDateTime) == Ok(entries[i])
    ensures DataMap(entries).Keys == set i | 0 <= i < |sources| :: SourceName(sources[i])
    ensures forall i :: 0 <= i < |sources| && LastOfItsName(sources, i) ==>
              && SourceName(sources[i]) in DataMap(entries)
              && SourceEntry(sources[i], Obj(instance), formatDateTime)
                 == Ok((SourceName(sources[i]), DataMap(entries)[SourceName(sources[i])]))
  {
    var m := DataMap(entries);
    assert forall i :: 0 <= i < |sources| ==> entries[i].0 == SourceName(sources[i]);
    forall i | 0 <= i < |sources| && LastOfItsName(sources, i)
      ensures SourceName(sources[i]) in m
      ensures SourceEntry(sources[i], Obj(instance), formatDateTime) == Ok((SourceName(sources[i]), m[SourceName(sources[i])]))
    {
      assert forall j :: i < j < |entries| ==> entries[j].0 != entries[i].0;
      assert m[entries[i].0] == entries[i].1;
    }
  }

  /**
   * One entry of `dashboardWidgets` with its data map. A configuration that
   * is null or undefined, or whose `dataSources` is not an array, throws;
   * so does any of its data sources.
   */
  function WidgetOf(config: Value, instance: Record, template: Record,
                    formatDateTime: int -> string): (r: Result<Widget, Failure>)
    ensures r.Ok? <==> && !IsNullish(config) && Prop(config, "dataSources").Arr?
                       && forall i :: 0 <= i < |Sources(config)| ==>
                            SourceEntry(Sources(config)[i], Obj(instance), formatDateTime).Ok?
    ensures IsNullish(config) || !Prop(config, "dataSources").Arr? ==> r == Err(TypeError)
    ensures r.Ok? ==>
              && r.value.config == config
              && r.value.instanceId == Get(instance, "id")
              && r.value.automationName == Get(template, "name")
              && r.value.data.Keys == set i | 0 <= i < |Sources(config)| :: SourceName(Sources(config)[i])
    ensures r.Ok? ==>
              forall i :: 0 <= i < |Sources(config)| && LastOfItsName(Sources(config), i) ==>
                && SourceName(Sources(config)[i]) in r.value.data
                && SourceEntry(Sources(config)[i], Obj(instance), formatDateTime)
                   == Ok((SourceName(Sources(config)[i]), r.value.data[SourceName(Sources(config)[i])]))
  {
    if IsNullish(config) then Err(TypeError)
    else match Prop(config, "dataSources")
      case Arr(sources) =>
        assert Sources(config) == sources;
        var entries :- SourceEntries(sources, instance, formatDateTime);
        EntriesData(sources, instance, formatDateTime, entries);
        Ok(Widget(config, DataMap(entries), Get(instance, "id"), Get(template, "name")))
      case _ => Err(TypeError)
  }

  /** What an instance names its template by: its `automationId`. */
  function TemplateRef(instance: Record): Value {
    Get(instance, "automationId")
  }

  /**
   * The widgets an enabled instance contributes. None when it names no
   * template, the template does not exist, or its `dashboardWidgets` is not
   * an array; otherwise one per entry, in template order. Reading the
   * template can fail (`templateFault` gives the error for a template id),
   * and a truthy `automationId` that is not a string makes the document
   * reference throw.
   */
  function InstanceWidgets(db: Db, d: Doc, templateFault: string -> Option<string>,
                           formatDateTime: int -> string): (r: Result<seq<Widget>, Failure>)
    ensures var aid := TemplateRef(FirestoreService.Merged(d));
            && (!Truthy(aid) ==> r == Ok([]))
            && (Truthy(aid) && !aid.Str? ==> r == Err(TypeError))
            && (aid.Str? && aid.s != "" && templateFault(aid.s).Some? ==> r == Err(ReadFailed(templateFault(aid.s).value)))
            && (aid.Str? && aid.s != "" && templateFault(aid.s).None? && Lookup(db.templates, aid.s).None? ==> r == Ok([]))
    ensures var aid := TemplateRef(FirestoreService.Merged(d));
            aid.Str? && aid.s != "" && templateFault(aid.s).None? && Lookup(db.templates, aid.s).Some? ==>
              var template := FirestoreService.Merged(Doc(aid.s, Lookup(db.templates, aid.s).value));
              var configs := Get(template, "dashboardWidgets");
              && (!configs.Arr? ==> r == Ok([]))
              && (configs.Arr? ==>
                    && (r.Ok? <==> forall i :: 0 <= i < |configs.items| ==>
                                     WidgetOf(configs.items[i], FirestoreService.Merged(d), template, formatDateTime).Ok?)
                    && (r.Ok? ==> |r.value| == |configs.items|
                                  && forall i :: 0 <= i < |configs.items| ==>
                                       WidgetOf(configs.items[i], FirestoreService.Merged(d), template, formatDateTime)
                                       == Ok(r.value[i])))
    ensures r.Ok? && r.value != [] ==>
              var aid := TemplateRef(FirestoreService.Merged(d));
              && aid.Str? && Lookup(db.templates, aid.s).Some?
              && var template := FirestoreService.Merged(Doc(aid.s, Lookup(db.templates, aid.s).value));
                 && Get(template, "dashboardWidgets").Arr?
                 && |r.value| == |Get(template, "dashboardWidgets").items|
                 && forall i :: 0 <= i < |r.value| ==>
                      WidgetOf(Get(template, "dashboardWidgets").items[i], FirestoreService.Merged(d), template,
                               formatDateTime) == Ok(r.value[i])
    ensures r.Ok? ==> forall w :: w in r.value ==> w.instanceId == Get(FirestoreService.Merged(d), "id")
  {
    var instance := FirestoreService.Merged(d);
    var aid := TemplateRef(instance);
    if !Truthy(aid) then Ok([])
    else if !aid.Str? then Err(TypeError)
    else if templateFault(aid.s).Some? then Err(ReadFailed(templateFault(aid.s).value))
    else match Lookup(db.templates, aid.s)
      case None => Ok([])
      case Some(t) =>
        var template := FirestoreService.Merged(Doc(aid.s, t));
        match Get(template, "dashboardWidgets")
        case Arr(configs) =>
          var rs := seq(|configs|, i requires 0 <= i < |configs| => WidgetOf(configs[i], instance, template, formatDateTime));
          assert forall i :: 0 <= i < |configs| ==> rs[i] == WidgetOf(configs[i], instance, template, formatDateTime);
          AllOk(rs)
        case _ => Ok([])
  }

  // ---------------------------------------------------------------------------
  // All instances
  // ---------------------------------------------------------------------------

  /** `results.flat()`: the lists joined end to end. */
  function Flatten(xss: seq<seq<Widget>>): (r: seq<Widget>)
    ensures forall w :: w in r <==> exists i :: 0 <= i < |xss| && w in xss[i]
    decreases |xss|
  {
    if xss == [] then []
    else
      var r := xss[0] + Flatten(xss[1..]);
      assert forall i :: 1 <= i < |xss| ==> xss[i] == xss[1..][i - 1];
      r
  }

  /** Flattening keeps the order of the lists: it maps concatenation to concatenation. */
  lemma {:induction false} FlattenAppend(a: seq<seq<Widget>>, b: seq<seq<Widget>>)
    ensures Flatten(a + b) == Flatten(a) + Flatten(b)
    decreases |a|
  {
    if a == [] {
      assert a + b == b;
    } else {
      assert (a + b)[1..] == a[1..] + b;
      FlattenAppend(a[1..], b);
    }
  }

  /** The number of widgets is the sum over the instances. */
  function TotalCount(xss: seq<seq<Widget>>): nat
    decreases |xss|
  {
    if xss == [] then 0 else |xss[0]| + TotalCount(xss[1..])
  }

  lemma {:induction false} FlattenLength(xss: seq<seq<Widget>>)
    ensures |Flatten(xss)| == TotalCount(xss)
    decreases |xss|
  {
    if xss != [] {
      FlattenLength(xss[1..]);
    }
  }

  /**
   * `Promise.all` over the enabled instances, then `.flat()`. On failure the
   * rejection is that of some failing instance (here the first in snapshot
   * order; which one arrives first depends on timing).
   */
  function Populate(db: Db, instances: Collection, templateFault: string -> Option<string>,
                    formatDateTime: int -> string): (r: Result<seq<Widget>, Failure>)
    ensures var per := seq(|instances|, i requires 0 <= i < |instances| =>
                             InstanceWidgets(db, instances[i], templateFault, formatDateTime));
            && (r.Ok? <==> forall i :: 0 <= i < |instances| ==> per[i].Ok?)
            && (r.Ok? ==> r.value == Flatten(seq(|instances|, i requires 0 <= i < |instances| => per[i].value)))
            && (r.Err? ==> exists i :: 0 <= i < |instances| && per[i] == Err(r.error))
  {
    var per := seq(|instances|, i requires 0 <= i < |instances| =>
                     InstanceWidgets(db, instances[i], templateFault, formatDateTime));
    match AllOk(per)
    case Err(e) => Err(e)
    case Ok(lists) =>
      assert lists == seq(|instances|, i requires 0 <= i < |instances| => per[i].value);
      Ok(Flatten(lists))
  }

  // ---------------------------------------------------------------------------
  // The page state
  // ---------------------------------------------------------------------------

  const NoCompanyMessage: string := "ID da empresa não encontrado. Não é possível carregar o dashboard."
  const ListenerFailedMessage: string := "Falha ao carregar automações para o dashboard."
  const LoadFailedPrefix: string := "Falha ao carregar dados para o dashboard: "

  /** What the page shows once loading is over. */
  datatype DashboardState = Failed(message: string) | Ready(widgets: seq<Widget>)

  /** `e.message` of a failure; the engine's TypeError text is a parameter. */
  function FailureText(f: Failure, typeErrorText: string): string {
    match f
    case TypeError => typeErrorText
    case ReadFailed(m) => m
  }

  /**
   * The dashboard of a company: the enabled instances (those whose `enabled`
   * is `true`) populated as above. No company id, a failed listener, and a
   * failed population each end in an error message.
   */
  function LoadDashboard(db: Db, companyId: string, listenerFault: Option<string>,
                         templateFault: string -> Option<string>, typeErrorText: string,
                         formatDateTime: int -> string): (s: DashboardState)
    ensures companyId == "" ==> s == Failed(NoCompanyMessage)
    ensures companyId != "" && listenerFault.Some? ==> s == Failed(ListenerFailedMessage)
    ensures companyId != "" && listenerFault.None? ==>
              var enabled := WhereEq(Instances(db, companyId), "enabled", Bool(true));
              var p := Populate(db, enabled, templateFault, formatDateTime);
              && (enabled == [] ==> s == Ready([]))
              && (p.Ok? ==> s == Ready(p.value))
              && (enabled != [] && p.Err? ==> s == Failed(LoadFailedPrefix + FailureText(p.error, typeErrorText)))
  {
    if companyId == "" then Failed(NoCompanyMessage)
    else if listenerFault.Some? then Failed(ListenerFailedMessage)
    else
      var enabled := WhereEq(Instances(db, companyId), "enabled", Bool(true));
      if enabled == [] then
        assert Flatten([]) == [];
        Ready([])
      else
        match Populate(db, enabled, templateFault, formatDateTime)
        case Ok(ws) => Ready(ws)
        case Err(f) => Failed(LoadFailedPrefix + FailureText(f, typeErrorText))
  }

  /** Every widget shown comes from an enabled instance of the company and carries that instance's id. */
  lemma ShownWidgetsComeFromEnabledInstances(db: Db, companyId: string, templateFault: string -> Option<string>,
                                             typeErrorText: string, formatDateTime: int -> string, w: Widget)
    requires companyId != ""
    requires var s := LoadDashboard(db, companyId, None, templateFault, typeErrorText, formatDateTime);
             s.Ready? && w in s.widgets
    ensures exists d :: d in Instances(db, companyId) && Get(d.data, "enabled") == Bool(true)
                        && w.instanceId == Get(FirestoreService.Merged(d), "id")
  {
    var enabled := WhereEq(Instances(db, companyId), "enabled", Bool(true));
    var per := seq(|enabled|, i requires 0 <= i < |enabled| =>
                     InstanceWidgets(db, enabled[i], templateFault, formatDateTime));
    var p := Populate(db, enabled, templateFault, formatDateTime);
    assert p.Ok?;
    var lists := seq(|enabled|, i requires 0 <= i < |enabled| => per[i].value);
    assert w in Flatten(lists);
    var i :| 0 <= i < |lists| && w in lists[i];
    assert enabled[i] in enabled;
  }

  /** The template document an instance names, with its id, when the store holds it. */
  function TemplateOf(db: Db, d: Doc): (t: Option<Record>)
    ensures t.Some? <==> TemplateRef(FirestoreService.Merged(d)).Str?
                         && Lookup(db.templates, TemplateRef(FirestoreService.Merged(d)).s).Some?
  {
    var aid := TemplateRef(FirestoreService.Merged(d));
    if aid.Str? && Lookup(db.templates, aid.s).Some? then
      Some(FirestoreService.Merged(Doc(aid.s, Lookup(db.templates, aid.s).value)))
    else None
  }

  /**
   * Every widget shown is one entry of the `dashboardWidgets` of the
   * template an enabled instance names, built over that instance: its data
   * holds, under each source name, what the last source of that name reads
   * from the instance.
   */
  lemma ShownWidgetIsBuiltFromItsInstance(db: Db, companyId: string, templateFault: string -> Option<string>,
                                          typeErrorText: string, formatDateTime: int -> string, w: Widget)
    requires companyId != ""
    requires var s := LoadDashboard(db, companyId, None, templateFault, typeErrorText, formatDateTime);
             s.Ready? && w in s.widgets
    ensures exists d :: && d in Instances(db, companyId) && Get(d.data, "enabled") == Bool(true)
                        && TemplateOf(db, d).Some?
                        && Get(TemplateOf(db, d).value, "dashboardWidgets").Arr?
                        && w.config in Get(TemplateOf(db, d).value, "dashboardWidgets").items
                        && WidgetOf(w.config, FirestoreService.Merged(d), TemplateOf(db, d).value, formatDateTime) == Ok(w)
  {
    var enabled := WhereEq(Instances(db, companyId), "enabled", Bool(true));
    var per := seq(|enabled|, i requires 0 <= i < |enabled| =>
                     InstanceWidgets(db, enabled[i], templateFault, formatDateTime));
    var p := Populate(db, enabled, templateFault, formatDateTime);
    assert p.Ok?;
    var lists := seq(|enabled|, i requires 0 <= i < |enabled| => per[i].value);
    assert w in Flatten(lists);
    var i :| 0 <= i < |lists| && w in lists[i];
    var d := enabled[i];
    assert d in enabled;
    var r := InstanceWidgets(db, d, templateFault, formatDateTime);
    assert r == per[i] && r.Ok? && w in r.value;
    var k :| 0 <= k < |r.value| && r.value[k] == w;
    var aid := TemplateRef(FirestoreService.Merged(d));
    var template := FirestoreService.Merged(Doc(aid.s, Lookup(db.templates, aid.s).value));
    assert TemplateOf(db, d) == Some(template);
    var configs := Get(template, "dashboardWidgets").items;
    assert WidgetOf(configs[k], FirestoreService.Merged(d), template, formatDateTime) == Ok(w);
    assert w.config == configs[k];
  }

  // ---------------------------------------------------------------------------
  // Grouping by automation
  // ---------------------------------------------------------------------------

  /** `${automationName} (Automação ID: ${instanceId})`. */
  function GroupKey(w: Widget): string {
    ToJsString(w.automationName) + " (Automação ID: " + ToJsString(w.instanceId) + ")"
  }

  /** A heading of the page and the widgets under it. */
  datatype Group = Group(key: string, widgets: seq<Widget>)

  /** The widgets with the given key, in their order. */
  function WithKey(ws: seq<Widget>, k: string): seq<Widget>
    decreases |ws|
  {
    if ws == [] then []
    else WithKey(ws[..|ws| - 1], k) + (if GroupKey(ws[|ws| - 1]) == k then [ws[|ws| - 1]] else [])
  }

  /** The distinct keys in the order they first appear (the insertion order of `Object.keys`). */
  function FirstSeenKeys(ws: seq<Widget>): (ks: seq<string>)
    ensures forall i, j :: 0 <= i < j < |ks| ==> ks[i] != ks[j]
    ensures forall k :: k in ks <==> exists w :: w in ws && GroupKey(w) == k
    decreases |ws|
  {
    if ws == [] then []
    else
      var init := ws[..|ws| - 1];
      var last := ws[|ws| - 1];
      var ks := FirstSeenKeys(init);
      assert forall w :: w in ws <==> w in init || w == last by {
        assert ws == init + [last];
      }
      if GroupKey(last) in ks then ks else ks + [GroupKey(last)]
  }

  /** Adds a widget to the group with its key, or opens a new group at the end. */
  function AddToGroups(gs: seq<Group>, w: Widget): (r: seq<Group>)
    decreases |gs|
  {
    if gs == [] then [Group(GroupKey(w), [w])]
    else if gs[0].key == GroupKey(w) then [gs[0].(widgets := gs[0].widgets + [w])] + gs[1..]
    else [gs[0]] + AddToGroups(gs[1..], w)
  }

  /** The page's `forEach`: every widget pushed onto the list of its key. */
  function GroupByAutomation(ws: seq<Widget>): seq<Group>
    decreases |ws|
  {
    if ws == [] then [] else AddToGroups(GroupByAutomation(ws[..|ws| - 1]), ws[|ws| - 1])
  }

  /** The grouping described without the loop: one group per distinct key, holding that key's widgets. */
  function ReferenceGroups(ws: seq<Widget>): seq<Group> {
    var ks := FirstSeenKeys(ws);
    seq(|ks|, i requires 0 <= i < |ks| => Group(ks[i], WithKey(ws, ks[i])))
  }

  /** Adding to an existing group extends that group and leaves the others alone. */
  lemma {:induction false} AddToExisting(gs: seq<Group>, w: Widget, n: nat)
    requires n < |gs| && gs[n].key == GroupKey(w)
    requires forall i :: 0 <= i < n ==> gs[i].key != GroupKey(w)
    ensures AddToGroups(gs, w) == gs[n := gs[n].(widgets := gs[n].widgets + [w])]
    decreases |gs|
  {
    if n > 0 {
      AddToExisting(gs[1..], w, n - 1);
      assert gs[1..][n - 1 := gs[n].(widgets := gs[n].widgets + [w])]
             == gs[n := gs[n].(widgets := gs[n].widgets + [w])][1..];
    }
  }

  /** Adding with a key no group has opens a group at the end. */
  lemma {:induction false} AddToNew(gs: seq<Group>, w: Widget)
    requires forall i :: 0 <= i < |gs| ==> gs[i].key != GroupKey(w)
    ensures AddToGroups(gs, w) == gs + [Group(GroupKey(w), [w])]
    decreases |gs|
  {
    if gs != [] {
      AddToNew(gs[1..], w);
      assert [gs[0]] + (gs[1..] + [Group(GroupKey(w), [w])]) == gs + [Group(GroupKey(w), [w])];
    }
  }

  /** A widget whose key is not `k` is not among the widgets with key `k`. */
  lemma {:induction false} WithKeyOfAbsent(ws: seq<Widget>, k: string)
    requires forall w :: w in ws ==> GroupKey(w) != k
    ensures WithKey(ws, k) == []
    decreases |ws|
  {
    if ws != [] {
      assert ws == ws[..|ws| - 1] + [ws[|ws| - 1]];
      WithKeyOfAbsent(ws[..|ws| - 1], k);
    }
  }

  /** The widgets with a key, after one more widget: the old ones, then the new one if it has that key. */
  lemma WithKeySnoc(init: seq<Widget>, w: Widget, k: string)
    ensures WithKey(init + [w], k) == WithKey(init, k) + (if GroupKey(w) == k then [w] else [])
  {
    var ws := init + [w];
    assert ws[..|ws| - 1] == init;
  }

  /** A widget with a key already seen extends that key's reference group. */
  lemma ReferenceStepExisting(init: seq<Widget>, w: Widget, n: nat)
    requires n < |FirstSeenKeys(init)| && FirstSeenKeys(init)[n] == GroupKey(w)
    ensures var gs := ReferenceGroups(init);
            ReferenceGroups(init + [w]) == gs[n := gs[n].(widgets := gs[n].widgets + [w])]
  {
    var ws := init + [w];
    assert ws[..|ws| - 1] == init;
    var ks := FirstSeenKeys(init);
    assert FirstSeenKeys(ws) == ks;
    var gs := ReferenceGroups(init);
    var lhs := ReferenceGroups(ws);
    var rhs := gs[n := gs[n].(widgets := gs[n].widgets + [w])];
    assert |lhs| == |ks| == |rhs|;
    forall i | 0 <= i < |ks|
      ensures lhs[i] == rhs[i]
    {
      WithKeySnoc(init, w, ks[i]);
      if i != n {
        assert ks[i] != ks[n];
      }
    }
  }

  /** A key that never appears has no widgets. */
  lemma UnseenKeyHasNoWidgets(ws: seq<Widget>, k: string)
    requires k !in FirstSeenKeys(ws)
    ensures WithKey(ws, k) == []
  {
    assert forall x :: x in ws ==> GroupKey(x) != k;
    WithKeyOfAbsent(ws, k);
  }

  /** A widget with a new key opens a reference group at the end. */
  lemma ReferenceStepNew(init: seq<Widget>, w: Widget)
    requires GroupKey(w) !in FirstSeenKeys(init)
    ensures ReferenceGroups(init + [w]) == ReferenceGroups(init) + [Group(GroupKey(w), [w])]
  {
    var ws := init + [w];
    assert ws[..|ws| - 1] == init;
    var ks := FirstSeenKeys(init);
    var k := GroupKey(w);
    assert FirstSeenKeys(ws) == ks + [k];
    var lhs := ReferenceGroups(ws);
    var rhs := ReferenceGroups(init) + [Group(k, [w])];
    assert |lhs| == |ks| + 1 == |rhs|;
    forall i | 0 <= i < |ks|
      ensures lhs[i] == rhs[i]
    {
      WithKeySnoc(init, w, ks[i]);
    }
    WithKeySnoc(init, w, k);
    UnseenKeyHasNoWidgets(init, k);
    assert lhs[|ks|] == rhs[|ks|];
  }

  /** The page's grouping is the reference grouping. */
  lemma {:induction false} GroupingIsReference(ws: seq<Widget>)
    ensures GroupByAutomation(ws) == ReferenceGroups(ws)
    decreases |ws|
  {
    if ws != [] {
      var init := ws[..|ws| - 1];
      var w := ws[|ws| - 1];
      GroupingIsReference(init);
      var gs := ReferenceGroups(init);
      var ks := FirstSeenKeys(init);
      assert ws == init + [w];
      if GroupKey(w) in ks {
        var n :| 0 <= n < |ks| && ks[n] == GroupKey(w);
        forall i | 0 <= i < n ensures gs[i].key != GroupKey(w) {
          assert ks[i] != ks[n];
        }
        AddToExisting(gs, w, n);
        ReferenceStepExisting(init, w, n);
      } else {
        AddToNew(gs, w);
        ReferenceStepNew(init, w);
      }
    }
  }

  /** Every member of a group has the group's key. */
  lemma {:induction false} WithKeyMembers(ws: seq<Widget>, k: string)
    ensures forall w :: w in WithKey(ws, k) <==> w in ws && GroupKey(w) == k
    decreases |ws|
  {
    if ws != [] {
      assert ws == ws[..|ws| - 1] + [ws[|ws| - 1]];
      WithKeyMembers(ws[..|ws| - 1], k);
    }
  }

  /**
   * The grouping the page renders: the keys are distinct, and every widget
   * lies in exactly one group, the one with its key; each group lists its
   * widgets in their original order.
   */
  lemma GroupingPartitions(ws: seq<Widget>)
    ensures var gs := GroupByAutomation(ws);
            && (forall i, j :: 0 <= i < j < |gs| ==> gs[i].key != gs[j].key)
            && (forall i :: 0 <= i < |gs| ==> gs[i].widgets == WithKey(ws, gs[i].key) && gs[i].widgets != [])
            && (forall w :: w in ws ==> exists i :: 0 <= i < |gs| && gs[i].key == GroupKey(w) && w in gs[i].widgets)
            && (forall w, i :: 0 <= i < |gs| && w in gs[i].widgets ==> w in ws && gs[i].key == GroupKey(w))
  {
    GroupingIsReference(ws);
    var gs := GroupByAutomation(ws);
    var ks := FirstSeenKeys(ws);
    forall i | 0 <= i < |gs|
      ensures gs[i].widgets != []
      ensures forall w :: w in gs[i].widgets <==> w in ws && GroupKey(w) == gs[i].key
    {
      WithKeyMembers(ws, ks[i]);
      assert ks[i] in ks;
    }
    forall w | w in ws
      ensures exists i :: 0 <= i < |gs| && gs[i].key == GroupKey(w) && w in gs[i].widgets
    {
      assert GroupKey(w) in ks;
      var i :| 0 <= i < |ks| && ks[i] == GroupKey(w);
      WithKeyMembers(ws, ks[i]);
      assert gs[i] == Group(ks[i], WithKey(ws, ks[i]));
    }
  }
}
