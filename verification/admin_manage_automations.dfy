/**
 * The template modal of the admin's automation page
 * (src/pages/admin/AdminManageAutomationsPage.tsx): the checks a submit
 * makes, the template data it builds and whether it asks for an update of
 * the edited template or for a new one. The service functions that write
 * are not part of this model: the result is the write asked for, and a
 * failing write is the parameter `writeFault`. `JSON.parse` and
 * `JSON.stringify` are the parameters `parse` (the value, or the message of
 * the `SyntaxError`) and `stringify`.
 */
module AdminManageAutomations {
  import opened Results
  import opened JsStrings
  import opened JsValues
  import opened Store
  import ActionEffects

  const NameRequiredMessage: string := "Nome e Descrição são obrigatórios."
  const InvalidSchemaPrefix: string := "Schema inválido: "
  const NotObjectMessage: string := "Deve ser objeto JSON."

  /** The modal's four text fields. */
  datatype TemplateForm = TemplateForm(name: string, description: string, icon: string, schema: string)

  /** A schema value the page accepts: `typeof` is "object", not null, not an array. */
  predicate AcceptedSchema(v: Value) {
    IsObject(v) && !v.Arr?
  }

  /** The schema a submit saves: `{}` for blank text, else the parsed object, else the message shown. */
  function ParseSchema(text: string, parse: string -> Result<Value, string>): (r: Result<Value, string>)
    ensures IsBlank(text) ==> r == Ok(Obj(map[]))
    ensures r.Ok? ==> AcceptedSchema(r.value)
    ensures !IsBlank(text) ==>
              (r.Ok? <==> parse(Trim(text)).Ok? && AcceptedSchema(parse(Trim(text)).value))
              && (r.Ok? ==> r.value == parse(Trim(text)).value)
    ensures r.Err? ==> StartsWith(r.error, InvalidSchemaPrefix)
  {
    if Trim(text) == "" then Ok(Obj(map[]))
    else match parse(Trim(text))
      case Err(m) => Err(InvalidSchemaPrefix + m)
      case Ok(v) =>
        if !IsObject(v) || v.Arr? then Err(InvalidSchemaPrefix + NotObjectMessage)
        else Ok(v)
  }

  /** The template data a submit writes; a blank icon is `undefined`. */
  function TemplateData(f: TemplateForm, schema: Value): (d: Record)
    ensures d.Keys == {"name", "description", "icon", "configSchema"}
    ensures d["name"] == Str(Trim(f.name)) && d["description"] == Str(Trim(f.description))
    ensures d["icon"] == (if IsBlank(f.icon) then Undef else Str(Trim(f.icon)))
    ensures d["configSchema"] == schema
  {
    map["name" := Str(Trim(f.name)), "description" := Str(Trim(f.description)),
        "icon" := (if Trim(f.icon) == "" then Undef else Str(Trim(f.icon))), "configSchema" := schema]
  }

  /** The write a submit asks for: an update of the edited template, or a new template. */
  datatype TemplateWrite = UpdateTemplate(templateId: Value, data: Record) | AddTemplate(data: Record)

  /** A submit's end: refused before any write, written, or written and failed with the message shown. */
  datatype Submitted = Refused(message: string) | Saved(write: TemplateWrite) | SaveFailed(write: TemplateWrite, message: string)

  /** The message shown when the write fails without one of its own. */
  function SaveFailedFallback(editing: bool): string {
    if editing then "Falha ao atualizar template." else "Falha ao criar template."
  }

  /**
   * `handleTemplateSubmit`: a blank name or description, or a schema that
   * does not parse to an object, is refused before any write; otherwise the
   * edited template (`editing`, with its `id`) is updated or a new one added.
   */
  function SubmitTemplate(f: TemplateForm, editing: Option<Record>, parse: string -> Result<Value, string>,
                          writeFault: Option<string>): (r: Submitted)
    ensures IsBlank(f.name) || IsBlank(f.description) ==> r == Refused(NameRequiredMessage)
    ensures !IsBlank(f.name) && !IsBlank(f.description) ==>
              (r.Refused? <==> ParseSchema(f.schema, parse).Err?)
              && (r.Refused? ==> r.message == ParseSchema(f.schema, parse).error)
    ensures !r.Refused? ==>
              && ParseSchema(f.schema, parse).Ok?
              && r.write.data == TemplateData(f, ParseSchema(f.schema, parse).value)
              && AcceptedSchema(r.write.data["configSchema"])
              && (editing.Some? <==> r.write.UpdateTemplate?)
              && (editing.Some? ==> r.write.templateId == Get(editing.value, "id"))
    ensures r.SaveFailed? <==> !r.Refused? && writeFault.Some?
  {
    if Trim(f.name) == "" || Trim(f.description) == "" then Refused(NameRequiredMessage)
    else match ParseSchema(f.schema, parse)
      case Err(m) => Refused(m)
      case Ok(schema) =>
        var data := TemplateData(f, schema);
        var write := if editing.Some? then UpdateTemplate(Get(editing.value, "id"), data) else AddTemplate(data);
        match writeFault
        case None => Saved(write)
        case Some(m) => SaveFailed(write, ActionEffects.MessageOr(m, SaveFailedFallback(editing.Some?)))
  }

  /** A text field of a template as the modal shows it: the string, or "" for anything else. */
  function TextOf(v: Value): string {
    if v.Str? then v.s else ""
  }

  /**
   * `handleShowTemplateModal` for an existing template: its name,
   * description and icon (or ""), and its schema (or `{}`) as JSON text.
   */
  function OpenTemplate(t: Record, stringify: Value -> string): (f: TemplateForm)
    ensures Get(t, "name").Str? ==> f.name == Get(t, "name").s
    ensures Get(t, "description").Str? ==> f.description == Get(t, "description").s
    ensures !Truthy(Get(t, "icon")) ==> f.icon == ""
    ensures Get(t, "icon").Str? ==> f.icon == Get(t, "icon").s
    ensures Truthy(Get(t, "configSchema")) ==> f.schema == stringify(Get(t, "configSchema"))
    ensures !Truthy(Get(t, "configSchema")) ==> f.schema == stringify(Obj(map[]))
  {
    var schema := Get(t, "configSchema");
    TemplateForm(TextOf(Get(t, "name")), TextOf(Get(t, "description")),
                 if Truthy(Get(t, "icon")) then TextOf(Get(t, "icon")) else "",
                 stringify(if Truthy(schema) then schema else Obj(map[])))
  }

  /** Reopening written data shows the trimmed texts and the schema's JSON text. */
  lemma OpenWrittenData(f: TemplateForm, schema: Value, stringify: Value -> string, id: Value)
    requires AcceptedSchema(schema)
    ensures var g := OpenTemplate(TemplateData(f, schema)["id" := id], stringify);
            && g.name == Trim(f.name) && g.description == Trim(f.description)
            && Trim(g.icon) == Trim(f.icon) && g.schema == stringify(schema)
  {
    var data := TemplateData(f, schema);
    var d := data["id" := id];
    assert Get(d, "name") == Str(Trim(f.name));
    assert Get(d, "description") == Str(Trim(f.description));
    assert Get(d, "configSchema") == schema;
    assert Get(d, "icon") == data["icon"];
    var g := OpenTemplate(d, stringify);
    assert Truthy(Get(d, "configSchema"));
    assert g.schema == stringify(schema);
    if IsBlank(f.icon) {
      assert g.icon == "";
      assert IsBlank(g.icon);
    } else {
      assert g.icon == Trim(f.icon);
      TrimIdempotent(f.icon);
    }
  }

  /** Data built from a reopened form equals the data it was reopened from. */
  lemma RebuiltDataIsSame(f: TemplateForm, g: TemplateForm, schema: Value)
    requires g.name == Trim(f.name) && g.description == Trim(f.description) && Trim(g.icon) == Trim(f.icon)
    ensures TemplateData(g, schema) == TemplateData(f, schema)
  {
    TrimIdempotent(f.name);
    TrimIdempotent(f.description);
  }

  /**
   * Saved data is a fixed point of the modal: reopening a template that holds
   * what a submit wrote and saving it unchanged asks to write the same data
   * to the same template, provided its schema survives `JSON.stringify` and
   * `JSON.parse`.
   */
  lemma ReopenAndSaveIsFixpoint(f: TemplateForm, schema: Value, parse: string -> Result<Value, string>,
                                stringify: Value -> string, id: Value)
    requires !IsBlank(f.name) && !IsBlank(f.description) && AcceptedSchema(schema)
    requires parse(Trim(stringify(schema))) == Ok(schema) && !IsBlank(stringify(schema))
    ensures var stored := TemplateData(f, schema)["id" := id];
            SubmitTemplate(OpenTemplate(stored, stringify), Some(stored), parse, None)
            == Saved(UpdateTemplate(id, TemplateData(f, schema)))
  {
    var stored := TemplateData(f, schema)["id" := id];
    var g := OpenTemplate(stored, stringify);
    OpenWrittenData(f, schema, stringify, id);
    RebuiltDataIsSame(f, g, schema);
    TrimIdempotent(f.name);
    TrimIdempotent(f.description);
    assert ParseSchema(g.schema, parse) == Ok(schema);
  }

  /** A refused submit asks for no write, whatever the store would have answered. */
  lemma RefusedWritesNothing(f: TemplateForm, editing: Option<Record>, parse: string -> Result<Value, string>,
                             w1: Option<string>, w2: Option<string>)
    requires SubmitTemplate(f, editing, parse, w1).Refused?
    ensures SubmitTemplate(f, editing, parse, w2) == SubmitTemplate(f, editing, parse, w1)
  {
  }
}
