/**
 * The decisions of the client-management page (src/pages/ManageClientsPage.tsx):
 * the due-date conversions between the form's `YYYY-MM-DD` text and a UTC
 * midnight timestamp, the table's `DD/MM/YYYY` rendering, the validation and
 * payload of the client form, and the enable/disable toggle.
 */
module ManageClients {
  import opened Results
  import opened JsStrings
  import opened JsValues
  import opened Calendar
  import opened Store

  // ---------------------------------------------------------------------------
  // Dates
  // ---------------------------------------------------------------------------

  /** `formatTimestampToDate`: "-" when there is no timestamp, otherwise `DD/MM/YYYY` of the UTC date. */
  function FormatTimestampToDate(ts: Value): (r: string)
    ensures !Truthy(ts) ==> r == "-"
    ensures Truthy(ts) && !ts.Time? ==> r == "Data inválida"
  {
    if !Truthy(ts) then "-"
    else match ts
      case Time(ms) =>
        var dt := UtcDate(ms);
        Pad2(dt.day) + "/" + Pad2(dt.month) + "/" + IntToString(dt.year)
      case _ => "Data inválida"
  }

  /** The edit form's due date: `${year}-${MM}-${DD}` of the UTC date, or "" when the client has none. */
  function EditFormDueDate(dueDate: Option<int>): (r: string)
    ensures dueDate.None? <==> r == ""
  {
    match dueDate
    case None => ""
    case Some(ms) =>
      var dt := UtcDate(ms);
      IntToString(dt.year) + "-" + Pad2(dt.month) + "-" + Pad2(dt.day)
  }

  /**
   * `new Date(text + "T00:00:00.000Z")`: the midnight UTC of the date the text
   * names, or `None` where the result is an invalid date.
   */
  function DueDateFromInput(text: string): (r: Option<int>)
    ensures r.None? <==> ParseDateOnly(text).None?
    ensures r.Some? ==> r.value % MsPerDay == 0
    ensures r.Some? ==> ParseDateOnly(text).Some? && UtcDate(r.value) == ParseDateOnly(text).value
  {
    match ParseDateOnly(text)
    case None => None
    case Some(dt) =>
      UtcDateOfMidnight(dt);
      Some(Midnight(dt))
  }

  lemma {:induction false} NatToStringLength(n: nat)
    requires 1000 <= n <= 9999
    ensures |NatToString(n)| == 4
  {
    assert NatToString(n) == NatToString(n / 10) + [DigitChar(n % 10)];
    assert NatToString(n / 10) == NatToString(n / 100) + [DigitChar(n / 10 % 10)];
    assert NatToString(n / 100) == NatToString(n / 1000) + [DigitChar(n / 100 % 10)];
  }

  /** A 10-character `YYYY-MM-DD` text with the given three numerals. */
  predicate IsoDateText(s: string) {
    |s| == 10 && s[4] == '-' && s[7] == '-'
    && AllDigits(s[..4]) && AllDigits(s[5..7]) && AllDigits(s[8..10])
  }

  /**
   * A date typed as `YYYY-MM-DD` (a valid calendar day, year 1000 or later)
   * and stored as a timestamp shows up unchanged when the client is edited.
   */
  lemma TextRoundTrip(s: string)
    requires IsoDateText(s) && s[0] != '0'
    requires DueDateFromInput(s).Some?
    ensures EditFormDueDate(DueDateFromInput(s)) == s
  {
    var dt := ParseDateOnly(s).value;
    assert dt == Date(ParseDigits(s[..4]), ParseDigits(s[5..7]), ParseDigits(s[8..10]));
    assert s[..4][0] == s[0];
    CanonicalRoundTrip(s[..4]);
    Pad2RoundTrip(s[5..7]);
    Pad2RoundTrip(s[8..10]);
    assert s == s[..4] + "-" + s[5..7] + "-" + s[8..10];
  }

  /**
   * A stored midnight timestamp whose year has four digits, shown in the edit
   * form and saved again, gives back the same timestamp.
   */
  lemma TimestampRoundTrip(ms: int)
    requires ms % MsPerDay == 0
    requires 1000 <= UtcDate(ms).year <= 9999
    ensures DueDateFromInput(EditFormDueDate(Some(ms))) == Some(ms)
  {
    var dt := UtcDate(ms);
    var ys, mm, dd := NatToString(dt.year), Pad2(dt.month), Pad2(dt.day);
    var s := ys + "-" + mm + "-" + dd;
    NatToStringLength(dt.year);
    assert s[..4] == ys && s[5..7] == mm && s[8..10] == dd;
    assert ParseDateOnly(s) == Some(dt);
    MidnightOfUtcDate(ms);
  }

  /**
   * The table cell of a timestamp names the UTC day that holds it: two-digit
   * day, two-digit month and (for four-digit years) the year, slash-separated.
   */
  lemma DisplayNamesTheDay(ms: int)
    requires 1000 <= UtcDate(ms).year <= 9999
    ensures var r := FormatTimestampToDate(Time(ms));
            var dt := UtcDate(ms);
            && |r| == 10 && r[2] == '/' && r[5] == '/'
            && AllDigits(r[..2]) && AllDigits(r[3..5]) && AllDigits(r[6..])
            && ParseDigits(r[..2]) == dt.day && ParseDigits(r[3..5]) == dt.month
            && ParseDigits(r[6..]) == dt.year
            && Midnight(dt) <= ms < Midnight(dt) + MsPerDay
  {
    var dt := UtcDate(ms);
    NatToStringLength(dt.year);
    var r := FormatTimestampToDate(Time(ms));
    assert r[..2] == Pad2(dt.day) && r[3..5] == Pad2(dt.month) && r[6..] == NatToString(dt.year);
  }

  // ---------------------------------------------------------------------------
  // The client form
  // ---------------------------------------------------------------------------

  /** The text of the form's six inputs. */
  datatype ClientForm = ClientForm(
    name: string, responsible: string, phone: string, email: string,
    driveFileNameHint: string, dueDate: string)

  const RequiredMissing: string := "Nome, Telefone, Email e Data de Vencimento são obrigatórios."
  const NoCompany: string := "ID da empresa não encontrado."
  const InvalidDueDate: string := "Data de vencimento inválida."

  /** `text.trim() || undefined`: the trimmed text, or nothing when it is blank. */
  function OptionalText(text: string): (r: Option<string>)
    ensures r.None? <==> IsBlank(text)
    ensures r.Some? ==> r.value == Trim(text) && r.value != ""
  {
    if Trim(text) == "" then None else Some(Trim(text))
  }

  /** `clientDataPayload`: the form's values as the page saves them. */
  datatype ClientData = ClientData(
    name: string, responsible: Option<string>, phone: string, email: string,
    driveFileNameHint: Option<string>, dueDate: int)

  /** What submitting the form does: show an error, update the edited client, or add a new one. */
  datatype Submission =
    | Rejected(message: string)
    | UpdateClientCall(clientId: string, data: ClientData)
    | AddClientCall(data: ClientData)

  /**
   * `handleClientSubmit`. All four required inputs must be non-blank, then a
   * company must be known, then the due date must parse; only then is a
   * write made, of the edited client or of a new one. Texts are saved
   * trimmed, so no saved required field is empty.
   */
  function SubmitClient(form: ClientForm, companyId: string, editing: Option<string>): (r: Submission)
    ensures r.Rejected? <==>
              || IsBlank(form.name) || IsBlank(form.phone) || IsBlank(form.email) || IsBlank(form.dueDate)
              || companyId == "" || DueDateFromInput(form.dueDate).None?
    ensures (IsBlank(form.name) || IsBlank(form.phone) || IsBlank(form.email) || IsBlank(form.dueDate))
            ==> r == Rejected(RequiredMissing)
    ensures !IsBlank(form.name) && !IsBlank(form.phone) && !IsBlank(form.email) && !IsBlank(form.dueDate)
            && companyId == ""
            ==> r == Rejected(NoCompany)
    ensures !IsBlank(form.name) && !IsBlank(form.phone) && !IsBlank(form.email) && !IsBlank(form.dueDate)
            && companyId != "" && ParseDateOnly(form.dueDate).None?
            ==> r == Rejected(InvalidDueDate)
    ensures r.UpdateClientCall? <==> !r.Rejected? && editing.Some?
    ensures r.UpdateClientCall? ==> editing == Some(r.clientId)
    ensures !r.Rejected? ==>
              && r.data.name == Trim(form.name) && r.data.name != ""
              && r.data.phone == Trim(form.phone) && r.data.phone != ""
              && r.data.email == Trim(form.email) && r.data.email != ""
              && r.data.responsible == OptionalText(form.responsible)
              && r.data.driveFileNameHint == OptionalText(form.driveFileNameHint)
              && Some(r.data.dueDate) == DueDateFromInput(form.dueDate)
  {
    if Trim(form.name) == "" || Trim(form.phone) == "" || Trim(form.email) == "" || Trim(form.dueDate) == "" then
      Rejected(RequiredMissing)
    else if companyId == "" then
      Rejected(NoCompany)
    else match DueDateFromInput(form.dueDate)
      case None => Rejected(InvalidDueDate)
      case Some(due) =>
        var data := ClientData(Trim(form.name), OptionalText(form.responsible), Trim(form.phone),
                               Trim(form.email), OptionalText(form.driveFileNameHint), due);
        match editing
        case Some(id) => UpdateClientCall(id, data)
        case None => AddClientCall(data)
  }

  /** An optional text as the page writes it: `undefined` when absent. */
  function AsWrittenValue(t: Option<string>): Value {
    match t
    case Some(s) => Str(s)
    case None => Undef
  }

  /** The client fields of the document as the page writes them, `undefined` included. */
  function DataFieldsAsWritten(d: ClientData): Patch {
    map[
      "name" := Set(Str(d.name)),
      "responsible" := Set(AsWrittenValue(d.responsible)),
      "phone" := Set(Str(d.phone)),
      "email" := Set(Str(d.email)),
      "driveFileNameHint" := Set(AsWrittenValue(d.driveFileNameHint)),
      "dueDate" := Set(Time(d.dueDate))]
  }

  /** The new-client document as the page hands it to `addDoc`. */
  function NewClientPayloadAsWritten(d: ClientData): Patch {
    DataFieldsAsWritten(d)["enabled" := Set(Bool(true))]["createdAt" := ServerTime]["lastStatusUpdate" := ServerTime]
  }

  /**
   * With an optional field left blank the page's payload holds `undefined`,
   * which Firestore's web SDK refuses by default: adding the client fails
   * and the form shows that error's message.
   */
  lemma BlankOptionalBreaksAdd(d: ClientData, c: Collection, newId: string, now: int)
    requires d.responsible.None? || d.driveFileNameHint.None?
    ensures AddDoc(c, newId, NewClientPayloadAsWritten(d), now) == Err(UndefinedFieldMessage)
  {
    var base := DataFieldsAsWritten(d);
    var p := NewClientPayloadAsWritten(d);
    var k := if d.responsible.None? then "responsible" else "driveFileNameHint";
    assert k in base && base[k] == Set(Undef);
    assert k != "enabled" && k != "createdAt" && k != "lastStatusUpdate";
    assert k in p && p[k] == Set(Undef);
  }

  /** `m[k := Set(Str(v))]` for a given text, `m` when there is none. */
  function SetIfSome(m: Patch, k: string, t: Option<string>): (r: Patch)
    ensures t.Some? ==> r == m[k := Set(Str(t.value))]
    ensures t.None? ==> r == m
  {
    match t
    case Some(v) => m[k := Set(Str(v))]
    case None => m
  }

  /** The client fields of a document. */
  const DataKeys: set<string> := {"name", "responsible", "phone", "email", "driveFileNameHint", "dueDate"}

  /** The client fields of the document, an absent optional text left out rather than written as `undefined`. */
  function DataFields(d: ClientData): (p: Patch)
    ensures p.Keys <= DataKeys
    ensures forall k :: k in p ==> p[k].Set? && p[k].value != Undef
    ensures "name" in p && p["name"] == Set(Str(d.name))
    ensures "phone" in p && p["phone"] == Set(Str(d.phone))
    ensures "email" in p && p["email"] == Set(Str(d.email))
    ensures "dueDate" in p && p["dueDate"] == Set(Time(d.dueDate))
    ensures "responsible" in p <==> d.responsible.Some?
    ensures "responsible" in p ==> p["responsible"] == Set(Str(d.responsible.value))
    ensures "driveFileNameHint" in p <==> d.driveFileNameHint.Some?
    ensures "driveFileNameHint" in p ==> p["driveFileNameHint"] == Set(Str(d.driveFileNameHint.value))
  {
    var p := map[
      "name" := Set(Str(d.name)),
      "phone" := Set(Str(d.phone)),
      "email" := Set(Str(d.email)),
      "dueDate" := Set(Time(d.dueDate))];
    var p := SetIfSome(p, "responsible", d.responsible);
    SetIfSome(p, "driveFileNameHint", d.driveFileNameHint)
  }

  /** The document a new client is added with: the client fields, enabled, both timestamps the server time. */
  function NewClientPayload(d: ClientData): (p: Patch)
    ensures !HoldsUndefined(p) && !HoldsDelete(p)
  {
    DataFields(d)["enabled" := Set(Bool(true))]["createdAt" := ServerTime]["lastStatusUpdate" := ServerTime]
  }

  /** The update of an edited client: the client fields and a fresh `lastStatusUpdate`. */
  function UpdateClientPayload(d: ClientData): (p: Patch)
    ensures !HoldsUndefined(p)
  {
    DataFields(d)["lastStatusUpdate" := ServerTime]
  }

  /** Editing a client never changes whether it is enabled. */
  lemma UpdateLeavesEnabled(d: ClientData)
    ensures "enabled" !in UpdateClientPayload(d)
  {
    assert "enabled" !in DataKeys;
  }

  /**
   * A new client is always accepted by the store and reads back as
   * submitted: the required fields, the optional ones only when given,
   * `enabled` true and both timestamps the server time.
   */
  lemma NewClientReadsBack(d: ClientData, c: Collection, newId: string, now: int)
    ensures var r := AddDoc(c, newId, NewClientPayload(d), now);
            && r.Ok? && |r.value| == |c| + 1 && r.value[..|c|] == c
            && var doc := r.value[|c|];
               && doc.id == newId
               && Get(doc.data, "name") == Str(d.name)
               && Get(doc.data, "phone") == Str(d.phone)
               && Get(doc.data, "email") == Str(d.email)
               && Get(doc.data, "dueDate") == Time(d.dueDate)
               && Get(doc.data, "responsible") == AsWrittenValue(d.responsible)
               && Get(doc.data, "driveFileNameHint") == AsWrittenValue(d.driveFileNameHint)
               && Get(doc.data, "enabled") == Bool(true)
               && Get(doc.data, "createdAt") == Time(now)
               && Get(doc.data, "lastStatusUpdate") == Time(now)
  {
    var p := NewClientPayload(d);
    var fields := DataFields(d);
    assert "enabled" !in DataKeys && "createdAt" !in DataKeys && "lastStatusUpdate" !in DataKeys;
    AddedDocument(c, newId, p, now);
  }

  /** The message the form shows when the save itself fails. */
  function SaveErrorMessage(errorMessage: string, editing: bool): (r: string)
    ensures r != ""
    ensures errorMessage != "" ==> r == errorMessage
  {
    if errorMessage != "" then errorMessage
    else if editing then "Falha ao atualizar cliente." else "Falha ao adicionar cliente."
  }

  /**
   * `handleToggleClientStatus`: the client id and the new `enabled`, the
   * negation of the current one; nothing without a company.
   */
  function ToggleClient(companyId: string, client: Doc): (r: Option<(string, bool)>)
    ensures r.None? <==> companyId == ""
    ensures r.Some? ==> r.value.0 == client.id
    ensures r.Some? ==> (r.value.1 <==> !Truthy(Get(client.data, "enabled")))
  {
    if companyId == "" then None
    else Some((client.id, !Truthy(Get(client.data, "enabled"))))
  }

  /** Toggling twice restores an enabled flag that was a boolean. */
  lemma ToggleTwice(companyId: string, client: Doc, b: bool)
    requires companyId != "" && Get(client.data, "enabled") == Bool(b)
    ensures var once := ToggleClient(companyId, client).value.1;
            ToggleClient(companyId, Doc(client.id, client.data["enabled" := Bool(once)])).value.1 == b
  {
  }
}
