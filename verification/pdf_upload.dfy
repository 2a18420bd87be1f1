/**
 * The PDF report action (src/components/automations/PdfUploadAction.tsx):
 * two checks that only show a message, then a start report and the upload
 * of the file to Storage, its download URL, the `markProcessing` Cloud
 * Function and, only when that succeeds, a second start report and the
 * webhook post, with one final report at the end.
 *
 * The outside answers are parameters: `upload` is how the upload ended,
 * `downloadUrl` what `getDownloadURL` gave (`None` when it failed),
 * `markFault` a failing store call inside `markProcessing`, `serverNow` the
 * server clock there, `timestamp` the client's `Date.now()` and `response`
 * what the webhook answers. `user` is the signed-in user's uid.
 */
module PdfUpload {
  import opened Results
  import opened JsStrings
  import opened JsValues
  import opened Store
  import CloudFunctions
  import AutomationDetail
  import opened ActionEffects

  const WebhookUrl: string := WebhookBase + "bfdd0c40-0430-4bc7-9b2e-fae837564d1f"

  /** The prefix of the placeholder the URL had before it was configured. */
  const PlaceholderPrefix: string := "COLE_SUA"

  const PdfMimeType: string := "application/pdf"

  const MissingInputMessage: string := "Selecione um arquivo PDF e garanta que os detalhes da automação foram carregados."
  const NotPdfMessage: string := "Por favor, selecione um arquivo PDF válido."
  const UploadFailedMessage: string := "Falha no upload do arquivo para o servidor."
  const UnauthorizedMessage: string := "Permissão negada para enviar o arquivo."
  const CanceledMessage: string := "Upload cancelado pelo usuário."
  const UrlFailedShown: string := "Upload bem-sucedido, mas falha ao obter URL do arquivo."
  const UrlFailedReported: string := "Falha ao obter URL do arquivo após upload."
  const MarkFailedFallback: string := "Erro ao atualizar status inicial da automação."
  const MarkFailedPrefix: string := "Falha ao iniciar processamento: "
  const PrepareFailedMessage: string := "Erro interno: Não foi possível preparar a automação."
  const WebhookConfigMessage: string := "Erro interno de configuração (webhook PDF)."
  const RequestedMessage: string := "Processamento do relatório solicitado!"
  const TriggerFailedFallback: string := "Erro ao acionar automação PDF."

  /** The selected file: its name and MIME type. */
  datatype File = File(name: string, mimeType: string)

  /** How the upload ended: success, or a Storage error with its `code`. */
  datatype UploadEnd = Uploaded | UploadFailed(code: Value)

  /** The effects of one press of the button and the store afterwards. */
  datatype Run = Run(effects: seq<Effect>, db: Db)

  /** The webhook URL is configured: not empty and not the placeholder. */
  predicate WebhookConfigured(url: string) {
    url != "" && !StartsWith(url, PlaceholderPrefix)
  }

  /**
   * The URL in the source is a configured one, so that check never fails.
   * The envoys action has its own URL and placeholder prefix, hence its own lemma.
   */
  lemma WebhookUrlIsConfigured()
    ensures WebhookConfigured(WebhookUrl)
  {
    assert WebhookUrl[0] == WebhookBase[0] == WebhookScheme[0];
  }

  /** The message for a failed upload, chosen by the Storage error code. */
  function UploadErrorMessage(code: Value): (m: string)
    ensures code == Str("storage/unauthorized") ==> m == UnauthorizedMessage
    ensures code == Str("storage/canceled") ==> m == CanceledMessage
    ensures code != Str("storage/unauthorized") && code != Str("storage/canceled") ==> m == UploadFailedMessage
  {
    if code == Str("storage/unauthorized") then UnauthorizedMessage
    else if code == Str("storage/canceled") then CanceledMessage
    else UploadFailedMessage
  }

  /** The object name after the owner's folders: `{instanceId}-{timestamp}-{file name}`. */
  function ObjectName(instanceId: Value, timestamp: nat, fileName: string): string {
    ToJsString(instanceId) + "-" + NatToString(timestamp) + "-" + fileName
  }

  /** `uploads/{uid}/{companyId}/{object name}`. */
  function StoragePath(uid: string, companyId: string, instanceId: Value, timestamp: nat, fileName: string): string {
    "uploads" + "/" + (uid + "/" + (companyId + "/" + ObjectName(instanceId, timestamp, fileName)))
  }

  /** `s` has no "/" in it. */
  ghost predicate NoSlash(s: string) {
    forall i :: !OccursAt(s, "/", i)
  }

  lemma NoSlashChar(s: string)
    requires '/' !in s
    ensures NoSlash(s)
  {
    forall i
      ensures !OccursAt(s, "/", i)
    {
      if 0 <= i && i + 1 <= |s| {
        assert s[i..i + 1][0] == s[i];
        assert s[i] in s;
      }
    }
  }

  /** Splitting a piece without "/" followed by "/" yields that piece, then the split of the rest. */
  lemma SplitAfterPiece(a: string, b: string)
    requires NoSlash(a)
    ensures Split(a + "/" + b, "/") == [a] + Split(b, "/")
  {
    var s := a + "/" + b;
    forall i | 0 <= i < |a|
      ensures !OccursAt(s, "/", i)
    {
      assert s[i..i + 1] == a[i..i + 1];
      assert !OccursAt(a, "/", i);
    }
    SplitAtFirst(a, "/", b);
  }

  /**
   * Split on "/", the storage path names the uploading user and the company
   * as its second and third segments, which is what Storage rules keyed on
   * the path match against (when neither id holds a "/").
   */
  lemma StoragePathNamesOwner(uid: string, companyId: string, instanceId: Value, timestamp: nat, fileName: string)
    requires NoSlash(uid) && NoSlash(companyId)
    ensures var parts := Split(StoragePath(uid, companyId, instanceId, timestamp, fileName), "/");
            |parts| >= 4 && parts[..3] == ["uploads", uid, companyId]
  {
    var rest := ObjectName(instanceId, timestamp, fileName);
    var c := companyId + "/" + rest;
    var u := uid + "/" + c;
    var p := StoragePath(uid, companyId, instanceId, timestamp, fileName);
    assert p == "uploads" + "/" + u;
    var tail := Split(rest, "/");
    SplitAfterPiece(companyId, rest);
    assert Split(c, "/") == [companyId] + tail;
    SplitAfterPiece(uid, c);
    assert Split(u, "/") == [uid] + ([companyId] + tail);
    NoSlashChar("uploads");
    SplitAfterPiece("uploads", u);
    assert Split(p, "/") == ["uploads"] + ([uid] + ([companyId] + tail));
    assert Split(p, "/")[..3] == ["uploads", uid, companyId];
  }

  /**
   * The `markProcessing` call with `{companyId, instanceId: instance.id}`:
   * a string id goes to the handler; a truthy id of another type makes the
   * document reference throw inside its `try`, which it reports as internal.
   */
  function MarkCall(db: Db, companyId: string, instanceId: Value, now: int, fault: CloudFunctions.Fault)
    : (o: CloudFunctions.Outcome)
    ensures instanceId.Str? ==> o == CloudFunctions.MarkProcessing(db, companyId, instanceId.s, now, fault)
    ensures !instanceId.Str? ==> o.result.Err? && o.db == db
  {
    if instanceId.Str? then CloudFunctions.MarkProcessing(db, companyId, instanceId.s, now, fault)
    else if companyId == "" || !Truthy(instanceId) then
      CloudFunctions.Outcome(Err(CloudFunctions.HttpsError(CloudFunctions.InvalidArgument, CloudFunctions.IdsRequired, None)), db)
    else
      CloudFunctions.Outcome(Err(CloudFunctions.HttpsError(CloudFunctions.Internal, CloudFunctions.MarkFailed, None)), db)
  }

  /** The body of the webhook post. */
  function Payload(instance: Record, companyId: string, uid: string, pdfUrl: string): (v: Value)
    ensures v.Obj? && v.fields.Keys == {"triggeringUserId", "companyId", "instanceId", "automationId", "config", "pdfUrl"}
    ensures v.fields["triggeringUserId"] == Str(uid) && v.fields["companyId"] == Str(companyId)
    ensures v.fields["instanceId"] == Get(instance, "id") && v.fields["automationId"] == Get(instance, "automationId")
    ensures v.fields["config"] == Get(instance, "config") && v.fields["pdfUrl"] == Str(pdfUrl)
  {
    Obj(map["triggeringUserId" := Str(uid), "companyId" := Str(companyId), "instanceId" := Get(instance, "id"),
            "automationId" := Get(instance, "automationId"), "config" := Get(instance, "config"),
            "pdfUrl" := Str(pdfUrl)])
  }

  /** The final report once the post is made; the response body is not read. */
  function ReportResponse(r: Response): (e: AutomationDetail.ActionEvent)
    ensures e.Completed?
    ensures e.success <==> r.Responded? && OkStatus(r.status)
    ensures e.success ==> e.text == RequestedMessage
    ensures r.Responded? && !OkStatus(r.status) ==> e.text == "Falha (Status " + IntToString(r.status) + ")"
    ensures r.NetworkFailure? ==> e.text == MessageOr(r.message, TriggerFailedFallback)
  {
    match r
    case NetworkFailure(m) => AutomationDetail.Completed(false, MessageOr(m, TriggerFailedFallback))
    case Responded(status, _, _) =>
      if OkStatus(status) then AutomationDetail.Completed(true, RequestedMessage)
      else AutomationDetail.Completed(false, "Falha (Status " + IntToString(status) + ")")
  }

  /** `triggerN8nWorkflow(pdfUrl)`: a start report, its own checks, then the post. */
  function Trigger(instance: Record, companyId: string, uid: string, pdfUrl: string, response: Response)
    : (t: seq<Effect>)
    ensures ReportsOnce(t) && t[0] == Notify(AutomationDetail.Started)
    ensures (exists url, body :: Post(url, body) in t) <==> companyId != "" && uid != ""
    ensures companyId == "" || uid == "" ==>
              t == [Notify(AutomationDetail.Started), Notify(AutomationDetail.Completed(false, WebhookConfigMessage))]
  {
    WebhookUrlIsConfigured();
    [Notify(AutomationDetail.Started)] +
    if companyId == "" || uid == "" || !WebhookConfigured(WebhookUrl) then
      [Notify(AutomationDetail.Completed(false, WebhookConfigMessage))]
    else
      [Post(WebhookUrl, Payload(instance, companyId, uid, pdfUrl)), Notify(ReportResponse(response))]
  }

  /** The two checks made before anything starts; `Some` is the message shown. */
  function PreCheck(file: Option<File>, user: Option<string>, companyId: string): (r: Option<string>)
    ensures r.None? <==> file.Some? && user.Some? && companyId != "" && file.value.mimeType == PdfMimeType
    ensures (file.None? || user.None? || companyId == "") ==> r == Some(MissingInputMessage)
    ensures file.Some? && user.Some? && companyId != "" && file.value.mimeType != PdfMimeType ==> r == Some(NotPdfMessage)
  {
    if file.None? || user.None? || companyId == "" then Some(MissingInputMessage)
    else if file.value.mimeType != PdfMimeType then Some(NotPdfMessage)
    else None
  }

  /** What follows a successful upload: the download URL, the ids check, `markProcessing` and the trigger. */
  function AfterUpload(db: Db, uid: string, companyId: string, instance: Record, downloadUrl: Option<string>,
                       markFault: CloudFunctions.Fault, serverNow: int, response: Response): (r: Run)
    ensures ReportsOnce(r.effects)
    ensures r.db != db ==> CallMarkProcessing(companyId, Get(instance, "id")) in r.effects
    ensures downloadUrl.None? ==>
              r == Run([ShowUploadError(UrlFailedShown), Notify(AutomationDetail.Completed(false, UrlFailedReported))], db)
    ensures downloadUrl.Some? && !Truthy(Get(instance, "id")) ==>
              r == Run([Notify(AutomationDetail.Completed(false, PrepareFailedMessage))], db)
    ensures downloadUrl.Some? && Truthy(Get(instance, "id")) ==>
              var o := MarkCall(db, companyId, Get(instance, "id"), serverNow, markFault);
              && r.db == o.db
              && (o.result.Err? ==>
                    var m := MessageOr(o.result.error.message, MarkFailedFallback);
                    r.effects == [CallMarkProcessing(companyId, Get(instance, "id")), ShowUploadError(m),
                                  Notify(AutomationDetail.Completed(false, MarkFailedPrefix + m))])
              && (o.result.Ok? ==>
                    r.effects == [CallMarkProcessing(companyId, Get(instance, "id"))]
                                 + Trigger(instance, companyId, uid, downloadUrl.value, response))
  {
    match downloadUrl
    case None => Run([ShowUploadError(UrlFailedShown), Notify(AutomationDetail.Completed(false, UrlFailedReported))], db)
    case Some(url) =>
      var id := Get(instance, "id");
      if !Truthy(id) then Run([Notify(AutomationDetail.Completed(false, PrepareFailedMessage))], db)
      else
        var o := MarkCall(db, companyId, id, serverNow, markFault);
        match o.result
        case Err(e) =>
          var m := MessageOr(e.message, MarkFailedFallback);
          Run([CallMarkProcessing(companyId, id), ShowUploadError(m), Notify(AutomationDetail.Completed(false, MarkFailedPrefix + m))], o.db)
        case Ok(_) =>
          var t := Trigger(instance, companyId, uid, url, response);
          PrefixKeepsReportsOnce([CallMarkProcessing(companyId, id)], t);
          Run([CallMarkProcessing(companyId, id)] + t, o.db)
  }

  /** `handleUpload`: the effects of one press of the button. */
  function HandleUpload(db: Db, file: Option<File>, user: Option<string>, companyId: string, instance: Record,
                        timestamp: nat, upload: UploadEnd, downloadUrl: Option<string>,
                        markFault: CloudFunctions.Fault, serverNow: int, response: Response): (r: Run)
    ensures PreCheck(file, user, companyId).Some? ==>
              r == Run([ShowUploadError(PreCheck(file, user, companyId).value)], db)
    ensures PreCheck(file, user, companyId).None? ==>
              && ReportsOnce(r.effects)
              && |r.effects| > 2 && r.effects[..2] == [Notify(AutomationDetail.Started),
                                    Upload(StoragePath(user.value, companyId, Get(instance, "id"), timestamp, file.value.name))]
    ensures upload.UploadFailed? && PreCheck(file, user, companyId).None? ==>
              r.db == db && r.effects[2..] == [ShowUploadError(UploadErrorMessage(upload.code)),
                                               Notify(AutomationDetail.Completed(false, UploadErrorMessage(upload.code)))]
    ensures r.db != db ==> CallMarkProcessing(companyId, Get(instance, "id")) in r.effects
    ensures upload.Uploaded? && PreCheck(file, user, companyId).None? ==>
              var after := AfterUpload(db, user.value, companyId, instance, downloadUrl, markFault, serverNow, response);
              r.effects[2..] == after.effects && r.db == after.db
  {
    match PreCheck(file, user, companyId)
    case Some(message) => Run([ShowUploadError(message)], db)
    case None =>
      var start := [Notify(AutomationDetail.Started),
                    Upload(StoragePath(user.value, companyId, Get(instance, "id"), timestamp, file.value.name))];
      var rest := match upload
                  case UploadFailed(code) =>
                    var m := UploadErrorMessage(code);
                    Run([ShowUploadError(m), Notify(AutomationDetail.Completed(false, m))], db)
                  case Uploaded =>
                    AfterUpload(db, user.value, companyId, instance, downloadUrl, markFault, serverNow, response);
      PrefixKeepsReportsOnce(start, rest.effects);
      assert (start + rest.effects)[2..] == rest.effects;
      Run(start + rest.effects, rest.db)
  }

  /** All the conditions under which the webhook is posted. */
  ghost predicate PostConditions(db: Db, file: Option<File>, user: Option<string>, companyId: string, instance: Record,
                                 upload: UploadEnd, downloadUrl: Option<string>, markFault: CloudFunctions.Fault) {
    && PreCheck(file, user, companyId).None? && user.value != ""
    && upload.Uploaded? && downloadUrl.Some?
    && Get(instance, "id").Str? && Get(instance, "id").s != ""
    && markFault.None? && Lookup(Instances(db, companyId), Get(instance, "id").s).Some?
  }

  lemma TriggerPosts(instance: Record, companyId: string, uid: string, pdfUrl: string, response: Response)
    requires companyId != "" && uid != ""
    ensures Trigger(instance, companyId, uid, pdfUrl, response)
            == [Notify(AutomationDetail.Started), Post(WebhookUrl, Payload(instance, companyId, uid, pdfUrl)),
                Notify(ReportResponse(response))]
  {
    WebhookUrlIsConfigured();
  }

  /**
   * The webhook is posted exactly when the file is a PDF, a user with a uid
   * and a company are known, the upload and its URL succeed, and
   * `markProcessing` succeeds on an existing instance; the store then holds
   * the instance as `markProcessing` left it.
   */
  lemma PostedIff(db: Db, file: Option<File>, user: Option<string>, companyId: string, instance: Record,
                  timestamp: nat, upload: UploadEnd, downloadUrl: Option<string>,
                  markFault: CloudFunctions.Fault, serverNow: int, response: Response)
    ensures var r := HandleUpload(db, file, user, companyId, instance, timestamp, upload, downloadUrl, markFault, serverNow, response);
            Posted(r.effects) <==> PostConditions(db, file, user, companyId, instance, upload, downloadUrl, markFault)
    ensures var r := HandleUpload(db, file, user, companyId, instance, timestamp, upload, downloadUrl, markFault, serverNow, response);
            PostConditions(db, file, user, companyId, instance, upload, downloadUrl, markFault) ==>
              && r.effects == [Notify(AutomationDetail.Started),
                               Upload(StoragePath(user.value, companyId, Get(instance, "id"), timestamp, file.value.name)),
                               CallMarkProcessing(companyId, Get(instance, "id")),
                               Notify(AutomationDetail.Started),
                               Post(WebhookUrl, Payload(instance, companyId, user.value, downloadUrl.value)),
                               Notify(ReportResponse(response))]
              && r.db == CloudFunctions.MarkProcessing(db, companyId, Get(instance, "id").s, serverNow, None).db
  {
    var r := HandleUpload(db, file, user, companyId, instance, timestamp, upload, downloadUrl, markFault, serverNow, response);
    if PostConditions(db, file, user, companyId, instance, upload, downloadUrl, markFault) {
      PostsWithConditions(db, file, user, companyId, instance, timestamp, upload, downloadUrl, markFault, serverNow, response);
      assert r.effects[4].Post?;
    } else {
      NoPostWithoutConditions(db, file, user, companyId, instance, timestamp, upload, downloadUrl, markFault, serverNow, response);
    }
  }

  /** When every condition holds, the run is the start, the upload, `markProcessing` and the trigger's post. */
  lemma PostsWithConditions(db: Db, file: Option<File>, user: Option<string>, companyId: string, instance: Record,
                            timestamp: nat, upload: UploadEnd, downloadUrl: Option<string>,
                            markFault: CloudFunctions.Fault, serverNow: int, response: Response)
    requires PostConditions(db, file, user, companyId, instance, upload, downloadUrl, markFault)
    ensures var r := HandleUpload(db, file, user, companyId, instance, timestamp, upload, downloadUrl, markFault, serverNow, response);
            && r.effects == [Notify(AutomationDetail.Started),
                             Upload(StoragePath(user.value, companyId, Get(instance, "id"), timestamp, file.value.name)),
                             CallMarkProcessing(companyId, Get(instance, "id")),
                             Notify(AutomationDetail.Started),
                             Post(WebhookUrl, Payload(instance, companyId, user.value, downloadUrl.value)),
                             Notify(ReportResponse(response))]
            && r.db == CloudFunctions.MarkProcessing(db, companyId, Get(instance, "id").s, serverNow, None).db
  {
    var id := Get(instance, "id");
    var o := MarkCall(db, companyId, id, serverNow, markFault);
    assert o == CloudFunctions.MarkProcessing(db, companyId, id.s, serverNow, None);
    assert o.result.Ok?;
    TriggerPosts(instance, companyId, user.value, downloadUrl.value, response);
    var a := AfterUpload(db, user.value, companyId, instance, downloadUrl, markFault, serverNow, response);
    assert a.effects == [CallMarkProcessing(companyId, id)] + Trigger(instance, companyId, user.value, downloadUrl.value, response);
    assert a.db == o.db;
  }

  /** After the upload, no post is made unless the URL, the ids, the user and `markProcessing` all succeed. */
  lemma AfterUploadNoPost(db: Db, uid: string, companyId: string, instance: Record, downloadUrl: Option<string>,
                          markFault: CloudFunctions.Fault, serverNow: int, response: Response)
    requires !(&& uid != "" && downloadUrl.Some? && Get(instance, "id").Str? && Get(instance, "id").s != ""
               && markFault.None? && companyId != "" && Lookup(Instances(db, companyId), Get(instance, "id").s).Some?)
    ensures !Posted(AfterUpload(db, uid, companyId, instance, downloadUrl, markFault, serverNow, response).effects)
  {
    var a := AfterUpload(db, uid, companyId, instance, downloadUrl, markFault, serverNow, response);
    var id := Get(instance, "id");
    if downloadUrl.Some? && Truthy(id) {
      var o := MarkCall(db, companyId, id, serverNow, markFault);
      if o.result.Ok? {
        assert id.Str? && id.s != "" && markFault.None? && companyId != "";
        assert uid == "";
        var t := Trigger(instance, companyId, uid, downloadUrl.value, response);
        assert t == [Notify(AutomationDetail.Started), Notify(AutomationDetail.Completed(false, WebhookConfigMessage))];
        assert a.effects == [CallMarkProcessing(companyId, id)] + t;
      }
    }
  }

  /** Without all the conditions of `PostConditions`, a press posts nothing. */
  lemma NoPostWithoutConditions(db: Db, file: Option<File>, user: Option<string>, companyId: string, instance: Record,
                                timestamp: nat, upload: UploadEnd, downloadUrl: Option<string>,
                                markFault: CloudFunctions.Fault, serverNow: int, response: Response)
    requires !PostConditions(db, file, user, companyId, instance, upload, downloadUrl, markFault)
    ensures !Posted(HandleUpload(db, file, user, companyId, instance, timestamp, upload, downloadUrl, markFault, serverNow, response).effects)
  {
    var r := HandleUpload(db, file, user, companyId, instance, timestamp, upload, downloadUrl, markFault, serverNow, response);
    if PreCheck(file, user, companyId).None? && upload.Uploaded? {
      var start := [Notify(AutomationDetail.Started),
                    Upload(StoragePath(user.value, companyId, Get(instance, "id"), timestamp, file.value.name))];
      var a := AfterUpload(db, user.value, companyId, instance, downloadUrl, markFault, serverNow, response);
      assert r.effects == start + a.effects;
      AfterUploadNoPost(db, user.value, companyId, instance, downloadUrl, markFault, serverNow, response);
      forall i | 0 <= i < |r.effects|
        ensures !r.effects[i].Post?
      {
        if i >= 2 {
          assert r.effects[i] == a.effects[i - 2];
        }
      }
    }
  }

  /**
   * When the webhook is posted, the store already holds the instance in the
   * processing state: the post is never made for an instance
   * `markProcessing` did not mark.
   */
  lemma WebhookSeesProcessingInstance(db: Db, file: Option<File>, user: Option<string>, companyId: string, instance: Record,
                                      timestamp: nat, upload: UploadEnd, downloadUrl: Option<string>,
                                      markFault: CloudFunctions.Fault, serverNow: int, response: Response)
    requires Posted(HandleUpload(db, file, user, companyId, instance, timestamp, upload, downloadUrl, markFault, serverNow, response).effects)
    ensures var r := HandleUpload(db, file, user, companyId, instance, timestamp, upload, downloadUrl, markFault, serverNow, response);
            var id := Get(instance, "id").s;
            && Lookup(Instances(r.db, companyId), id).Some?
            && CloudFunctions.ProcessingState(Lookup(Instances(db, companyId), id).value,
                                              Lookup(Instances(r.db, companyId), id).value, serverNow)
  {
    PostedIff(db, file, user, companyId, instance, timestamp, upload, downloadUrl, markFault, serverNow, response);
    CloudFunctions.MarkProcessingEffect(db, companyId, Get(instance, "id").s, serverNow);
  }

  /** Success is reported exactly when the webhook was posted and answered with a 2xx status. */
  lemma SuccessMeansAccepted(db: Db, file: Option<File>, user: Option<string>, companyId: string, instance: Record,
                             timestamp: nat, upload: UploadEnd, downloadUrl: Option<string>,
                             markFault: CloudFunctions.Fault, serverNow: int, response: Response)
    requires PreCheck(file, user, companyId).None?
    ensures var r := HandleUpload(db, file, user, companyId, instance, timestamp, upload, downloadUrl, markFault, serverNow, response);
            FinalReport(r.effects).success <==>
              PostConditions(db, file, user, companyId, instance, upload, downloadUrl, markFault)
              && response.Responded? && OkStatus(response.status)
  {
    PostedIff(db, file, user, companyId, instance, timestamp, upload, downloadUrl, markFault, serverNow, response);
  }

  /** After the press the page is idle and shows the final report, whatever it showed before. */
  lemma PageShowsOutcome(f: AutomationDetail.Feedback, db: Db, file: Option<File>, user: Option<string>, companyId: string,
                         instance: Record, timestamp: nat, upload: UploadEnd, downloadUrl: Option<string>,
                         markFault: CloudFunctions.Fault, serverNow: int, response: Response)
    requires PreCheck(file, user, companyId).None?
    ensures var r := HandleUpload(db, file, user, companyId, instance, timestamp, upload, downloadUrl, markFault, serverNow, response);
            var shown := AutomationDetail.Replay(f, Notifications(r.effects));
            && !shown.inProgress && shown.message.Some?
            && shown.message.value.success == FinalReport(r.effects).success
  {
    ReportShown(f, HandleUpload(db, file, user, companyId, instance, timestamp, upload, downloadUrl, markFault, serverNow, response).effects);
  }

  /**
   * A posting run reports the start twice, before the upload and again
   * before the post; by `RestartIsHarmless` the page shows the same as after
   * one start report.
   */
  lemma StartReportedTwice(db: Db, file: Option<File>, user: Option<string>, companyId: string,
                           instance: Record, timestamp: nat, upload: UploadEnd, downloadUrl: Option<string>,
                           serverNow: int, response: Response)
    requires PostConditions(db, file, user, companyId, instance, upload, downloadUrl, None)
    ensures Notifications(HandleUpload(db, file, user, companyId, instance, timestamp, upload, downloadUrl, None, serverNow, response).effects)
            == [AutomationDetail.Started, AutomationDetail.Started, ReportResponse(response)]
  {
    PostedIff(db, file, user, companyId, instance, timestamp, upload, downloadUrl, None, serverNow, response);
    NotificationsOfPostingRun(StoragePath(user.value, companyId, Get(instance, "id"), timestamp, file.value.name),
                              companyId, Get(instance, "id"), Payload(instance, companyId, user.value, downloadUrl.value),
                              ReportResponse(response));
  }

  lemma NotificationsOfPostingRun(path: string, companyId: string, id: Value, body: Value, report: AutomationDetail.ActionEvent)
    ensures Notifications([Notify(AutomationDetail.Started), Upload(path), CallMarkProcessing(companyId, id),
                           Notify(AutomationDetail.Started), Post(WebhookUrl, body), Notify(report)])
            == [AutomationDetail.Started, AutomationDetail.Started, report]
  {
    var t1 := [Notify(AutomationDetail.Started)];
    assert t1[..0] == [];
    assert Notifications(t1) == [AutomationDetail.Started];
    var t2 := t1 + [Upload(path)];
    assert t2[..1] == t1;
    assert Notifications(t2) == [AutomationDetail.Started];
    var t3 := t2 + [CallMarkProcessing(companyId, id)];
    assert t3[..2] == t2;
    assert Notifications(t3) == [AutomationDetail.Started];
    var t4 := t3 + [Notify(AutomationDetail.Started)];
    assert t4[..3] == t3;
    assert Notifications(t4) == [AutomationDetail.Started, AutomationDetail.Started];
    var t5 := t4 + [Post(WebhookUrl, body)];
    assert t5[..4] == t4;
    var t6 := t5 + [Notify(report)];
    assert t6[..5] == t5;
    assert Notifications(t5) == [AutomationDetail.Started, AutomationDetail.Started];
    assert Notifications(t6) == [AutomationDetail.Started, AutomationDetail.Started, report];
    assert t6 == [Notify(AutomationDetail.Started), Upload(path), CallMarkProcessing(companyId, id),
                  Notify(AutomationDetail.Started), Post(WebhookUrl, body), Notify(report)];
  }
}
