/**
 * The automation modal and the status toggle of the admin's company page
 * (src/pages/admin/AdminClientDetailPage.tsx): the configuration a template
 * selection or an edit starts from, how an input change updates it, and the
 * association or status write a submit or toggle asks for. The service
 * functions that perform the writes are not part of this model: a handler's
 * result is the write it asks for, and a failing write is the parameter
 * `writeFault`.
 *
 * Templates are records with their document `id` merged in, as the template
 * list holds them; their `configSchema` maps each field name to a field
 * schema object.
 */
module AdminClientDetail {
  import opened Results
  import opened JsStrings
  import opened JsValues
  import opened Store
  import ActionEffects

  const MissingIdsMessage: string := "ID do Template ou da Empresa faltando."
  const SaveFailedFallback: string := "Falha."
  const ToggleFailedFallback: string := "Erro desconhecido"
  const ToggleFailedPrefix: string := "Erro: "

  /** `a ?? b`. */
  function Coalesce(a: Value, b: Value): (r: Value)
    ensures !IsNullish(a) ==> r == a
    ensures IsNullish(a) ==> r == b
  {
    if IsNullish(a) then b else a
  }

  /** The first template whose `id` is the given one (`templates.find(t => t.id === id)`). */
  function FindTemplate(templates: seq<Record>, id: Value): (r: Option<Record>)
    ensures r.Some? ==> r.value in templates && Get(r.value, "id") == id
    ensures r.None? ==> forall t :: t in templates ==> Get(t, "id") != id
    ensures r.Some? ==> exists i :: 0 <= i < |templates| && templates[i] == r.value
                                    && forall j :: 0 <= j < i ==> Get(templates[j], "id") != id
  {
    if templates == [] then None
    else if Get(templates[0], "id") == id then Some(templates[0])
    else
      var r := FindTemplate(templates[1..], id);
      assert r.Some? ==> exists i :: 1 <= i < |templates| && templates[i] == r.value
                                     && forall j :: 0 <= j < i ==> Get(templates[j], "id") != id by {
        if r.Some? {
          var k :| 0 <= k < |templates[1..]| && templates[1..][k] == r.value
                   && forall j :: 0 <= j < k ==> Get(templates[1..][j], "id") != id;
          assert templates[k + 1] == r.value;
          assert forall j :: 1 <= j < k + 1 ==> templates[j] == templates[1..][j - 1];
        }
      }
      r
  }

  /** The field schemas a schema object lists; a schema that is not a plain object lists none. */
  function FieldSchemas(schema: Value): (m: map<string, Value>)
    ensures schema.Obj? ==> m == schema.fields
    ensures !schema.Obj? ==> m == map[]
  {
    if schema.Obj? then schema.fields else map[]
  }

  /**
   * The configuration a template selection starts from: each field whose
   * schema defines a `defaultValue` (anything but `undefined`, `null`
   * included) holds that default. `None` when some field schema is null or
   * undefined: reading its `defaultValue` throws and the form stays empty.
   */
  function SchemaDefaults(schema: Value): (r: Option<Record>)
    ensures r.None? <==> exists k :: k in FieldSchemas(schema) && IsNullish(FieldSchemas(schema)[k])
    ensures r.Some? ==> forall k :: k in r.value <==> k in FieldSchemas(schema) && Prop(FieldSchemas(schema)[k], "defaultValue") != Undef
    ensures r.Some? ==> forall k :: k in r.value ==> r.value[k] == Prop(FieldSchemas(schema)[k], "defaultValue")
  {
    var fields := FieldSchemas(schema);
    if exists k :: k in fields && IsNullish(fields[k]) then None
    else Some(map k | k in fields && Prop(fields[k], "defaultValue") != Undef :: Prop(fields[k], "defaultValue"))
  }

  /** `handleTemplateSelectChange`: the form is emptied, then filled with the selected template's defaults. */
  function SelectTemplate(templates: seq<Record>, newTemplateId: string): (config: Record)
    ensures FindTemplate(templates, Str(newTemplateId)).None? ==> config == map[]
    ensures FindTemplate(templates, Str(newTemplateId)).Some? ==>
              var schema := Get(FindTemplate(templates, Str(newTemplateId)).value, "configSchema");
              && (schema.Obj? && SchemaDefaults(schema).Some? ==> config == SchemaDefaults(schema).value)
              && (SchemaDefaults(schema).None? ==> config == map[])
    ensures FindTemplate(templates, Str(newTemplateId)).Some? ==>
              var schema := Get(FindTemplate(templates, Str(newTemplateId)).value, "configSchema");
              !schema.Obj? ==> config == map[]
    ensures forall k :: k in config ==> config[k] != Undef
  {
    match FindTemplate(templates, Str(newTemplateId))
    case None => map[]
    case Some(t) =>
      var schema := Get(t, "configSchema");
      if !Truthy(schema) then map[]
      else SchemaDefaults(schema).GetOr(map[])
  }

  /** The value the form shows for a field: `configFormData[key] ?? fieldSchema.defaultValue ?? ''`. */
  function ShownValue(config: Record, fieldSchema: Value, key: string): (v: Value)
    ensures !IsNullish(Get(config, key)) ==> v == Get(config, key)
    ensures IsNullish(Get(config, key)) && !IsNullish(Prop(fieldSchema, "defaultValue")) ==> v == Prop(fieldSchema, "defaultValue")
    ensures IsNullish(Get(config, key)) && IsNullish(Prop(fieldSchema, "defaultValue")) ==> v == Str("")
  {
    Coalesce(Get(config, key), Coalesce(Prop(fieldSchema, "defaultValue"), Str("")))
  }

  /**
   * Selecting a template changes nothing the form shows: every field
   * displays what it would display over an empty configuration, while the
   * configuration now holds the defaults that a submit saves.
   */
  lemma SelectionShowsDefaults(templates: seq<Record>, newTemplateId: string, key: string)
    requires FindTemplate(templates, Str(newTemplateId)).Some?
    requires key in FieldSchemas(Get(FindTemplate(templates, Str(newTemplateId)).value, "configSchema"))
    ensures var fieldSchema := FieldSchemas(Get(FindTemplate(templates, Str(newTemplateId)).value, "configSchema"))[key];
            ShownValue(SelectTemplate(templates, newTemplateId), fieldSchema, key) == ShownValue(map[], fieldSchema, key)
  {
  }

  /** `handleShowAutomationModal` for an existing instance: the form starts from `instance.config || {}`. */
  function PrefillConfig(instance: Record): (config: Record)
    ensures Get(instance, "config").Obj? ==> config == Get(instance, "config").fields
    ensures !Truthy(Get(instance, "config")) ==> config == map[]
  {
    match Get(instance, "config")
    case Obj(fields) => fields
    case _ => map[]
  }

  /** What an input of the configuration form reports. */
  datatype Input = Checkbox(checked: bool) | NumberInput(text: string) | OtherInput(text: string)

  /**
   * `handleConfigFormChange`: the input's value is stored under its name, a
   * checkbox's as its checked state, a number input's through `numberOf`
   * (`parseFloat(value) || 0`) and any other input's as the raw text.
   */
  function ChangeConfig(config: Record, name: string, input: Input, numberOf: string -> Value): (r: Record)
    ensures r.Keys == config.Keys + {name}
    ensures forall k :: k in config && k != name ==> r[k] == config[k]
    ensures input.Checkbox? ==> r[name] == Bool(input.checked)
    ensures input.OtherInput? ==> r[name] == Str(input.text)
    ensures input.NumberInput? ==> r[name] == numberOf(input.text)
  {
    config[name := match input
                   case Checkbox(checked) => Bool(checked)
                   case NumberInput(text) => numberOf(text)
                   case OtherInput(text) => Str(text)]
  }

  /** Changing the same input twice keeps only the last value. */
  lemma LastChangeWins(config: Record, name: string, a: Input, b: Input, numberOf: string -> Value)
    ensures ChangeConfig(ChangeConfig(config, name, a, numberOf), name, b, numberOf) == ChangeConfig(config, name, b, numberOf)
  {
  }

  /** The association `associateAutomationToCompany(companyId, templateId, config, enabled)` writes. */
  datatype Association = Association(companyId: string, templateId: Value, config: Record, enabled: Value)

  /** A submit's end: refused before any write, written, or written and failed with the message shown. */
  datatype Submitted = Refused(message: string) | Saved(write: Association) | SaveFailed(write: Association, message: string)

  /**
   * `handleAutomationSubmit`: the template is the edited instance's
   * `automationId`, or the selected one for a new association; without it
   * or the company id nothing is written. An edit keeps the instance's
   * `enabled`, a new association is enabled.
   */
  function SubmitAssociation(companyId: string, editing: Option<Record>, selectedTemplateId: string,
                             config: Record, writeFault: Option<string>): (r: Submitted)
    ensures var templateId := if editing.Some? then Get(editing.value, "automationId") else Str(selectedTemplateId);
            (r.Refused? <==> !Truthy(templateId) || companyId == "")
            && (r.Refused? ==> r.message == MissingIdsMessage)
            && (!r.Refused? ==> r.write.companyId == companyId && r.write.templateId == templateId && r.write.config == config)
    ensures !r.Refused? && editing.Some? ==> r.write.enabled == Get(editing.value, "enabled")
    ensures !r.Refused? && editing.None? ==> r.write.enabled == Bool(true)
    ensures r.SaveFailed? <==> !r.Refused? && writeFault.Some?
  {
    var templateId := if editing.Some? then Get(editing.value, "automationId") else Str(selectedTemplateId);
    if !Truthy(templateId) || companyId == "" then Refused(MissingIdsMessage)
    else
      var enabled := if editing.Some? then Get(editing.value, "enabled") else Bool(true);
      var write := Association(companyId, templateId, config, enabled);
      match writeFault
      case None => Saved(write)
      case Some(m) => SaveFailed(write, ActionEffects.MessageOr(m, SaveFailedFallback))
  }

  /** While an instance is edited, the template selection plays no part in what is written. */
  lemma EditIgnoresSelection(companyId: string, instance: Record, s1: string, s2: string,
                             config: Record, writeFault: Option<string>)
    ensures SubmitAssociation(companyId, Some(instance), s1, config, writeFault)
            == SubmitAssociation(companyId, Some(instance), s2, config, writeFault)
  {
  }

  /**
   * Editing an instance and saving it unchanged writes back its own
   * template, configuration and status.
   */
  lemma UnchangedEditWritesBack(companyId: string, instance: Record, selectedTemplateId: string)
    requires companyId != "" && Truthy(Get(instance, "automationId")) && Get(instance, "config").Obj?
    ensures SubmitAssociation(companyId, Some(instance), selectedTemplateId, PrefillConfig(instance), None)
            == Saved(Association(companyId, Get(instance, "automationId"), Get(instance, "config").fields,
                                 Get(instance, "enabled")))
  {
  }

  /** The status write `updateCompanyAutomationStatus(companyId, instanceId, enabled)` asks for. */
  datatype StatusWrite = StatusWrite(companyId: string, instanceId: Value, enabled: bool)

  /** `handleToggleAutomationStatus`: nothing without a company id, else the negation of `enabled`. */
  function Toggle(companyId: string, instance: Record): (r: Option<StatusWrite>)
    ensures r.None? <==> companyId == ""
    ensures r.Some? ==> r.value.companyId == companyId && r.value.instanceId == Get(instance, "id") && r.value.enabled == !Truthy(Get(instance, "enabled"))
  {
    if companyId == "" then None
    else Some(StatusWrite(companyId, Get(instance, "id"), !Truthy(Get(instance, "enabled"))))
  }

  /** The alert shown when the status write fails. */
  function ToggleFailedAlert(message: string): (a: string)
    ensures |a| > |ToggleFailedPrefix| && a[..|ToggleFailedPrefix|] == ToggleFailedPrefix
    ensures message != "" ==> a[|ToggleFailedPrefix|..] == message
    ensures message == "" ==> a[|ToggleFailedPrefix|..] == ToggleFailedFallback
  {
    ToggleFailedPrefix + ActionEffects.MessageOr(message, ToggleFailedFallback)
  }

  /** Toggling, then toggling the instance as written, asks for the original status back. */
  lemma ToggleTwiceRestores(companyId: string, instance: Record)
    requires companyId != ""
    ensures var once := Toggle(companyId, instance).value;
            var written := instance["enabled" := Bool(once.enabled)];
            Toggle(companyId, written).value.enabled == Truthy(Get(instance, "enabled"))
  {
  }
}
