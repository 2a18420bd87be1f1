/**
 * The three callable Cloud Functions of the backend (functions/src/index.ts)
 * as transitions over the store: each takes the request and the store and
 * yields the reply or the `HttpsError` the caller sees, with the new store.
 *
 * Request fields are strings with "" standing for "absent": every use of a
 * field in the handlers is guarded by JavaScript truthiness, under which an
 * empty string and `undefined` behave alike. The server clock is `now`, the
 * ISO-8601 parser is the parameter `parseIso`, and a failure of the store
 * itself (a network or permission error) is the parameter `fault`.
 */
module CloudFunctions {
  import opened Results
  import opened JsValues
  import opened Store

  /** The `HttpsError` codes the handlers use. */
  datatype ErrorCode = InvalidArgument | NotFound | Internal

  datatype HttpsError = HttpsError(code: ErrorCode, message: string, details: Option<string>)

  /** The success replies: `{success, companyId}`, `{success}` and `{success, message}`. */
  datatype Reply = CompanyFound(companyId: string) | Marked | Updated(message: string)

  /** A handler's answer and the store after the call. */
  datatype Outcome = Outcome(result: Result<Reply, HttpsError>, db: Db)

  /** `Some(message)` when the store call raises an error with that message. */
  type Fault = Option<string>

  const CodeRequired: string := "O código da empresa é obrigatório."
  const CodeNotFound: string := "Código da empresa inválido ou não encontrado."
  const CodeCheckFailed: string := "Falha ao validar o código da empresa."
  const IdsRequired: string := "IDs são obrigatórios."
  const MarkFailed: string := "Falha ao atualizar status inicial."
  const UpdateIdsRequired: string := "companyId e instanceId são obrigatórios."
  const ClientUpdated: string := "Status do cliente atualizado."
  const InstanceUpdated: string := "Status da automação atualizado."
  const InsufficientData: string := "Dados insuficientes para atualização."
  const UpdateFailed: string := "Falha ao atualizar Firestore."

  /** The message Firestore's `update()` raises for a document that does not exist. */
  function NoDocumentMessage(path: string): string {
    "5 NOT_FOUND: No document to update: " + path
  }

  // ---------------------------------------------------------------------------
  // validateCompanyCode
  // ---------------------------------------------------------------------------

  /**
   * Looks up the first company whose `accessCode` equals the code. A missing
   * code is rejected before the store is read; the not-found error raised in
   * the `try` is re-thrown as it is, any other failure becomes `internal`.
   */
  function ValidateCompanyCode(db: Db, companyCode: string, fault: Fault): (o: Outcome)
    ensures o.db == db
    ensures companyCode == "" ==> o.result == Err(HttpsError(InvalidArgument, CodeRequired, None))
    ensures o.result.Ok? ==>
              && o.result.value.CompanyFound?
              && exists d :: d in db.companies && d.id == o.result.value.companyId
                             && Get(d.data, "accessCode") == Str(companyCode)
    ensures o.result == Err(HttpsError(NotFound, CodeNotFound, None)) <==>
              && companyCode != "" && fault.None?
              && forall d :: d in db.companies ==> Get(d.data, "accessCode") != Str(companyCode)
    ensures o.result.Err? && o.result.error.code == Internal <==> companyCode != "" && fault.Some?
    ensures companyCode != "" && fault.Some? ==>
              o.result == Err(HttpsError(Internal, CodeCheckFailed, fault))
  {
    if companyCode == "" then
      Outcome(Err(HttpsError(InvalidArgument, CodeRequired, None)), db)
    else if fault.Some? then
      Outcome(Err(HttpsError(Internal, CodeCheckFailed, fault)), db)
    else
      match FirstWhere(db.companies, "accessCode", Str(companyCode))
      case Some(d) => Outcome(Ok(CompanyFound(d.id)), db)
      case None => Outcome(Err(HttpsError(NotFound, CodeNotFound, None)), db)
  }

  /** With `limit(1)` the company returned is the first match in listing order. */
  lemma ValidateReturnsFirstMatch(db: Db, companyCode: string)
    requires companyCode != ""
    ensures var all := WhereEq(db.companies, "accessCode", Str(companyCode));
            var o := ValidateCompanyCode(db, companyCode, None);
            all != [] ==> o.result == Ok(CompanyFound(all[0].id))
  {
    FirstWhereIsHead(db.companies, "accessCode", Str(companyCode));
  }

  // ---------------------------------------------------------------------------
  // markProcessing
  // ---------------------------------------------------------------------------

  /** The update `markProcessing` sends. */
  const ProcessingPatch: Patch := map[
    "status" := Set(Str("processing")),
    "resultFileUrl" := Delete,
    "storagePath" := Delete,
    "errorMessage" := Delete,
    "lastRun" := ServerTime]

  /** The instance fields `markProcessing` writes; every other field is kept. */
  const ProcessingFields: set<string> := {"status", "resultFileUrl", "storagePath", "errorMessage", "lastRun"}

  /**
   * Puts instance `companies/{companyId}/company_automations/{instanceId}` into
   * the "processing" state. A missing id is rejected before any write; a
   * missing document or a store failure becomes `internal` with no details.
   */
  function MarkProcessing(db: Db, companyId: string, instanceId: string, now: int, fault: Fault): (o: Outcome)
    ensures o.result.Err? ==> o.db == db
    ensures (companyId == "" || instanceId == "") ==>
              o.result == Err(HttpsError(InvalidArgument, IdsRequired, None))
    ensures o.result.Ok? <==>
              companyId != "" && instanceId != "" && fault.None?
              && Lookup(Instances(db, companyId), instanceId).Some?
    ensures o.result.Ok? ==> o.result.value == Marked
    ensures companyId != "" && instanceId != "" && o.result.Err? ==>
              o.result == Err(HttpsError(Internal, MarkFailed, None))
  {
    if companyId == "" || instanceId == "" then
      Outcome(Err(HttpsError(InvalidArgument, IdsRequired, None)), db)
    else if fault.Some? then
      Outcome(Err(HttpsError(Internal, MarkFailed, None)), db)
    else
      match UpdateInstance(db, companyId, instanceId, ProcessingPatch, now)
      case None => Outcome(Err(HttpsError(Internal, MarkFailed, None)), db)
      case Some(db') => Outcome(Ok(Marked), db')
  }

  /**
   * `after` is `before` put into the "processing" state: status "processing",
   * no result URL, storage path or error message, the server time in
   * `lastRun`, and every other field (among them `resultFileName`,
   * `lastRunDetails`, `config` and `enabled`) as it was.
   */
  ghost predicate ProcessingState(before: Record, after: Record, now: int) {
    && "status" in after && after["status"] == Str("processing")
    && "resultFileUrl" !in after && "storagePath" !in after && "errorMessage" !in after
    && "lastRun" in after && after["lastRun"] == Time(now)
    && forall k :: k !in ProcessingFields ==> Agree(before, after, k)
  }

  lemma ProcessingPatchMeaning(before: Record, now: int)
    ensures ProcessingState(before, ApplyPatch(before, ProcessingPatch, now), now)
  {
    var after := ApplyPatch(before, ProcessingPatch, now);
    assert ProcessingPatch.Keys == ProcessingFields;
  }

  /**
   * A successful `markProcessing` leaves the instance in the processing state
   * and no other document of the store changes.
   */
  lemma MarkProcessingEffect(db: Db, companyId: string, instanceId: string, now: int)
    requires companyId != "" && instanceId != ""
    requires Lookup(Instances(db, companyId), instanceId).Some?
    ensures var o := MarkProcessing(db, companyId, instanceId, now, None);
            && o.result == Ok(Marked)
            && Lookup(Instances(o.db, companyId), instanceId).Some?
            && ProcessingState(Lookup(Instances(db, companyId), instanceId).value,
                               Lookup(Instances(o.db, companyId), instanceId).value, now)
            && SameExcept(db.automations, o.db.automations, companyId, instanceId)
            && o.db == db.(automations := o.db.automations)
  {
    var before := Lookup(Instances(db, companyId), instanceId).value;
    UpdateInFrame(db.automations, companyId, instanceId, ProcessingPatch, now);
    ProcessingPatchMeaning(before, now);
  }

  /** Calling `markProcessing` again at the same server time changes nothing more. */
  lemma MarkProcessingIdempotent(db: Db, companyId: string, instanceId: string, now: int)
    ensures var o := MarkProcessing(db, companyId, instanceId, now, None);
            o.result.Ok? ==> MarkProcessing(o.db, companyId, instanceId, now, None) == o
  {
    var o := MarkProcessing(db, companyId, instanceId, now, None);
    if o.result.Ok? {
      UpdateInstanceIdempotent(db, companyId, instanceId, ProcessingPatch, now);
    }
  }

  // ---------------------------------------------------------------------------
  // updateAutomationInstance
  // ---------------------------------------------------------------------------

  /** The request of `updateAutomationInstance`; "" marks an absent field. */
  datatype UpdateRequest = UpdateRequest(
    companyId: string,
    instanceId: string,
    instanceStatus: string,
    instanceLastRun: string,
    instanceResultFileUrl: string,
    instanceStoragePath: string,
    instanceResultFileName: string,
    instanceErrorMessage: string,
    clientId: string,
    clientWhatsappStatus: string,
    clientEmailStatus: string,
    clientErrorMessage: string)

  /** `m[k := Set(Str(v))]` when `v` is non-empty, else `m`. */
  function SetIfGiven(m: Patch, k: string, v: string): (r: Patch)
    ensures v != "" ==> r == m[k := Set(Str(v))]
    ensures v == "" ==> r == m
  {
    if v != "" then m[k := Set(Str(v))] else m
  }

  /** The client fields the client branch may write. */
  const ClientFields: set<string> := {"lastStatusUpdate", "lastWhatsappStatus", "lastEmailStatus", "clientErrorMessage"}

  /** The update of the client branch. */
  function ClientPatch(req: UpdateRequest): (p: Patch)
    ensures p.Keys <= ClientFields
    ensures "lastStatusUpdate" in p && p["lastStatusUpdate"] == ServerTime
    ensures "lastWhatsappStatus" in p <==> req.clientWhatsappStatus != ""
    ensures "lastWhatsappStatus" in p ==> p["lastWhatsappStatus"] == Set(Str(req.clientWhatsappStatus))
    ensures "lastEmailStatus" in p <==> req.clientEmailStatus != ""
    ensures "lastEmailStatus" in p ==> p["lastEmailStatus"] == Set(Str(req.clientEmailStatus))
    ensures "clientErrorMessage" in p
    ensures p["clientErrorMessage"] ==
              if req.clientErrorMessage != "" then Set(Str(req.clientErrorMessage)) else Delete
  {
    var p := map["lastStatusUpdate" := ServerTime];
    var p := SetIfGiven(p, "lastWhatsappStatus", req.clientWhatsappStatus);
    var p := SetIfGiven(p, "lastEmailStatus", req.clientEmailStatus);
    if req.clientErrorMessage != "" then p["clientErrorMessage" := Set(Str(req.clientErrorMessage))]
    else p["clientErrorMessage" := Delete]
  }

  /** The instance fields the instance branch may write. */
  const InstanceFields: set<string> :=
    {"status", "lastRun", "resultFileUrl", "storagePath", "resultFileName", "errorMessage"}

  /** The `lastRun` the request converts to, if its conversion does not throw. */
  function LastRun(req: UpdateRequest, parseIso: string -> Option<int>): Option<int> {
    if req.instanceLastRun != "" then parseIso(req.instanceLastRun) else None
  }

  /** The update of the instance branch. */
  function InstancePatch(req: UpdateRequest, parseIso: string -> Option<int>): (p: Patch)
    ensures p.Keys <= InstanceFields
    ensures "status" in p && p["status"] == Set(Str(req.instanceStatus))
    ensures "lastRun" in p <==> LastRun(req, parseIso).Some?
    ensures "lastRun" in p ==> p["lastRun"] == Set(Time(LastRun(req, parseIso).value))
    ensures "resultFileUrl" in p <==> req.instanceResultFileUrl != ""
    ensures "resultFileUrl" in p ==> p["resultFileUrl"] == Set(Str(req.instanceResultFileUrl))
    ensures "storagePath" in p <==> req.instanceStoragePath != ""
    ensures "storagePath" in p ==> p["storagePath"] == Set(Str(req.instanceStoragePath))
    ensures "resultFileName" in p <==> req.instanceResultFileName != ""
    ensures "resultFileName" in p ==> p["resultFileName"] == Set(Str(req.instanceResultFileName))
    ensures "errorMessage" in p <==> req.instanceErrorMessage != "" || req.instanceStatus != "error"
    ensures "errorMessage" in p ==>
              p["errorMessage"] ==
                if req.instanceErrorMessage != "" then Set(Str(req.instanceErrorMessage)) else Delete
  {
    var p := map["status" := Set(Str(req.instanceStatus))];
    var p := match LastRun(req, parseIso)
             case Some(ms) => p["lastRun" := Set(Time(ms))]
             case None => p;
    var p := SetIfGiven(p, "resultFileUrl", req.instanceResultFileUrl);
    var p := SetIfGiven(p, "storagePath", req.instanceStoragePath);
    var p := SetIfGiven(p, "resultFileName", req.instanceResultFileName);
    if req.instanceErrorMessage != "" then p["errorMessage" := Set(Str(req.instanceErrorMessage))]
    else if req.instanceStatus != "error" then p["errorMessage" := Delete]
    else p
  }

  /** Turns a failed store update into the `internal` error the `catch` raises. */
  function Commit(db: Db, updated: Option<Db>, path: string, message: string, fault: Fault): (o: Outcome)
    ensures o.result.Err? ==> o.db == db
  {
    if fault.Some? then Outcome(Err(HttpsError(Internal, UpdateFailed, fault)), db)
    else match updated
      case None => Outcome(Err(HttpsError(Internal, UpdateFailed, Some(NoDocumentMessage(path)))), db)
      case Some(db') => Outcome(Ok(Updated(message)), db')
  }

  /**
   * The status callback of the external workflow. A non-empty `clientId`
   * selects the update of that client's record; otherwise a non-empty
   * `instanceStatus` selects the update of the instance; otherwise the call
   * fails. Every failure inside the `try`, the "insufficient data" one
   * included, reaches the caller as `internal`.
   */
  function UpdateAutomationInstance(db: Db, req: UpdateRequest, now: int,
                                    parseIso: string -> Option<int>, fault: Fault): (o: Outcome)
    ensures o.result.Err? ==> o.db == db
    ensures o.result.Err? && o.result.error.code == InvalidArgument <==>
              req.companyId == "" || req.instanceId == ""
    ensures o.result.Err? && o.result.error.code == InvalidArgument ==>
              o.result.error == HttpsError(InvalidArgument, UpdateIdsRequired, None)
    ensures o.result.Err? && o.result.error.code != InvalidArgument ==>
              o.result.error.code == Internal && o.result.error.message == UpdateFailed
    ensures o.result.Ok? <==>
              && req.companyId != "" && req.instanceId != "" && fault.None?
              && if req.clientId != "" then Lookup(Clients(db, req.companyId), req.clientId).Some?
                 else req.instanceStatus != "" && Lookup(Instances(db, req.companyId), req.instanceId).Some?
    ensures o.result.Ok? ==>
              o.result.value == Updated(if req.clientId != "" then ClientUpdated else InstanceUpdated)
  {
    if req.companyId == "" || req.instanceId == "" then
      Outcome(Err(HttpsError(InvalidArgument, UpdateIdsRequired, None)), db)
    else if req.clientId != "" then
      var path := "companies/" + req.companyId + "/clients/" + req.clientId;
      Commit(db, UpdateClient(db, req.companyId, req.clientId, ClientPatch(req), now), path, ClientUpdated, fault)
    else if req.instanceStatus != "" then
      var path := "companies/" + req.companyId + "/company_automations/" + req.instanceId;
      var patch := InstancePatch(req, parseIso);
      Commit(db, UpdateInstance(db, req.companyId, req.instanceId, patch, now), path, InstanceUpdated, fault)
    else
      Outcome(Err(HttpsError(Internal, UpdateFailed, Some(InsufficientData))), db)
  }

  /** A request naming neither a client nor an instance status writes nothing and fails as `internal`. */
  lemma InsufficientDataIsInternal(db: Db, req: UpdateRequest, now: int,
                                   parseIso: string -> Option<int>, fault: Fault)
    requires req.companyId != "" && req.instanceId != ""
    requires req.clientId == "" && req.instanceStatus == ""
    ensures UpdateAutomationInstance(db, req, now, parseIso, fault)
            == Outcome(Err(HttpsError(Internal, UpdateFailed, Some(InsufficientData))), db)
  {
  }

  /** The instance fields of the request play no part once a client is named. */
  lemma ClientBranchIgnoresInstanceFields(db: Db, req: UpdateRequest, req': UpdateRequest, now: int,
                                          parseIso: string -> Option<int>, fault: Fault)
    requires req.clientId != ""
    requires req'.companyId == req.companyId && req'.instanceId == req.instanceId
    requires req'.clientId == req.clientId && req'.clientWhatsappStatus == req.clientWhatsappStatus
    requires req'.clientEmailStatus == req.clientEmailStatus && req'.clientErrorMessage == req.clientErrorMessage
    ensures UpdateAutomationInstance(db, req, now, parseIso, fault)
            == UpdateAutomationInstance(db, req', now, parseIso, fault)
  {
    assert ClientPatch(req) == ClientPatch(req');
  }

  /**
   * `after` is the client record `before` updated by `req`: the server time
   * in `lastStatusUpdate`, each status only when given, the error message
   * when given and its deletion when not, and every other field as it was.
   */
  ghost predicate ClientApplied(before: Record, after: Record, req: UpdateRequest, now: int) {
    && "lastStatusUpdate" in after && after["lastStatusUpdate"] == Time(now)
    && (if req.clientWhatsappStatus != "" then
          "lastWhatsappStatus" in after && after["lastWhatsappStatus"] == Str(req.clientWhatsappStatus)
        else Agree(before, after, "lastWhatsappStatus"))
    && (if req.clientEmailStatus != "" then
          "lastEmailStatus" in after && after["lastEmailStatus"] == Str(req.clientEmailStatus)
        else Agree(before, after, "lastEmailStatus"))
    && ("clientErrorMessage" in after <==> req.clientErrorMessage != "")
    && ("clientErrorMessage" in after ==> after["clientErrorMessage"] == Str(req.clientErrorMessage))
    && forall k :: k !in ClientFields ==> Agree(before, after, k)
  }

  lemma ClientPatchMeaning(before: Record, req: UpdateRequest, now: int)
    ensures ClientApplied(before, ApplyPatch(before, ClientPatch(req), now), req, now)
  {
  }

  /** The client branch writes only the named client's record, as `ClientApplied` describes. */
  lemma ClientUpdateEffect(db: Db, req: UpdateRequest, now: int, parseIso: string -> Option<int>)
    requires req.companyId != "" && req.instanceId != "" && req.clientId != ""
    requires Lookup(Clients(db, req.companyId), req.clientId).Some?
    ensures var o := UpdateAutomationInstance(db, req, now, parseIso, None);
            && o.result == Ok(Updated(ClientUpdated))
            && Lookup(Clients(o.db, req.companyId), req.clientId).Some?
            && ClientApplied(Lookup(Clients(db, req.companyId), req.clientId).value,
                             Lookup(Clients(o.db, req.companyId), req.clientId).value, req, now)
            && SameExcept(db.clients, o.db.clients, req.companyId, req.clientId)
            && o.db == db.(clients := o.db.clients)
  {
    var before := Lookup(Clients(db, req.companyId), req.clientId).value;
    UpdateInFrame(db.clients, req.companyId, req.clientId, ClientPatch(req), now);
    ClientPatchMeaning(before, req, now);
  }

  /**
   * `after` is the instance record `before` updated by `req`: the new
   * status, the converted `lastRun` when the conversion succeeds, each result
   * field only when given, and the error message by the rule that an old
   * message survives exactly when none is given and the status is "error";
   * every other field as it was.
   */
  ghost predicate InstanceApplied(before: Record, after: Record, req: UpdateRequest,
                                  parseIso: string -> Option<int>) {
    && "status" in after && after["status"] == Str(req.instanceStatus)
    && (if LastRun(req, parseIso).Some? then
          "lastRun" in after && after["lastRun"] == Time(LastRun(req, parseIso).value)
        else Agree(before, after, "lastRun"))
    && (if req.instanceResultFileUrl != "" then
          "resultFileUrl" in after && after["resultFileUrl"] == Str(req.instanceResultFileUrl)
        else Agree(before, after, "resultFileUrl"))
    && (if req.instanceStoragePath != "" then
          "storagePath" in after && after["storagePath"] == Str(req.instanceStoragePath)
        else Agree(before, after, "storagePath"))
    && (if req.instanceResultFileName != "" then
          "resultFileName" in after && after["resultFileName"] == Str(req.instanceResultFileName)
        else Agree(before, after, "resultFileName"))
    && ("errorMessage" in after <==>
          req.instanceErrorMessage != "" || (req.instanceStatus == "error" && "errorMessage" in before))
    && (req.instanceErrorMessage != "" ==> after["errorMessage"] == Str(req.instanceErrorMessage))
    && (req.instanceErrorMessage == "" && req.instanceStatus == "error" ==> Agree(before, after, "errorMessage"))
    && forall k :: k !in InstanceFields ==> Agree(before, after, k)
  }

  lemma InstancePatchMeaning(before: Record, req: UpdateRequest, parseIso: string -> Option<int>, now: int)
    ensures InstanceApplied(before, ApplyPatch(before, InstancePatch(req, parseIso), now), req, parseIso)
  {
  }

  /** The instance branch writes only the named instance, as `InstanceApplied` describes. */
  lemma InstanceUpdateEffect(db: Db, req: UpdateRequest, now: int, parseIso: string -> Option<int>)
    requires req.companyId != "" && req.instanceId != "" && req.clientId == "" && req.instanceStatus != ""
    requires Lookup(Instances(db, req.companyId), req.instanceId).Some?
    ensures var o := UpdateAutomationInstance(db, req, now, parseIso, None);
            && o.result == Ok(Updated(InstanceUpdated))
            && Lookup(Instances(o.db, req.companyId), req.instanceId).Some?
            && InstanceApplied(Lookup(Instances(db, req.companyId), req.instanceId).value,
                               Lookup(Instances(o.db, req.companyId), req.instanceId).value, req, parseIso)
            && SameExcept(db.automations, o.db.automations, req.companyId, req.instanceId)
            && o.db == db.(automations := o.db.automations)
  {
    var before := Lookup(Instances(db, req.companyId), req.instanceId).value;
    var patch := InstancePatch(req, parseIso);
    UpdateInFrame(db.automations, req.companyId, req.instanceId, patch, now);
    InstancePatchMeaning(before, req, parseIso, now);
  }
}
