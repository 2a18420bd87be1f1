/**
 * The automation detail page (src/pages/AutomationDetailPage.tsx): loading
 * the instance with its template, the live instance listener, the result
 * section chosen by the instance status, the result download, the action
 * component chosen by template id, and the feedback an action reports.
 */
module AutomationDetail {
  import opened Results
  import opened JsStrings
  import opened JsValues
  import opened Store
  import CloudFunctions
  import FirestoreService

  /**
   * A text field of an instance as the page reads it; a missing field reads
   * as `""`, which every test on the page treats like `undefined`.
   */
  function TextField(r: Record, k: string): (s: string)
    ensures Get(r, k).Str? ==> s == Get(r, k).s
    ensures !Get(r, k).Str? ==> s == ""
  {
    match Get(r, k)
    case Str(s) => s
    case _ => ""
  }

  // ---------------------------------------------------------------------------
  // Initial load and the instance listener
  // ---------------------------------------------------------------------------

  const MissingIdsMessage: string := "Informações da automação ou empresa não encontradas."
  const LoadErrorMessage: string := "Erro ao carregar detalhes iniciais da automação."
  const RemovedMessage: string := "Configuração desta automação foi removida ou não existe."
  const ListenerErrorMessage: string := "Erro ao monitorar status da automação."

  function NotFoundMessage(instanceId: string): string {
    "Detalhes não encontrados para a automação \"" + instanceId + "\"."
  }

  /** What the first load leaves: an error to show, or the instance with its template. */
  datatype Initial = InitialError(message: string) | Loaded(details: FirestoreService.Details)

  /**
   * `fetchInitialDetails`: both ids must be present; then the joined details,
   * or a not-found message naming the instance id.
   */
  function FetchInitial(db: Db, companyId: string, instanceId: string, fault: CloudFunctions.Fault): (r: Initial)
    ensures companyId == "" || instanceId == "" ==> r == InitialError(MissingIdsMessage)
    ensures companyId != "" && instanceId != "" ==>
              match FirestoreService.GetCompanyAutomationDetails(db, companyId, instanceId, fault)
              case Some(d) => r == Loaded(d)
              case None => r == InitialError(NotFoundMessage(instanceId))
  {
    if instanceId == "" || companyId == "" then InitialError(MissingIdsMessage)
    else match FirestoreService.GetCompanyAutomationDetails(db, companyId, instanceId, fault)
      case Some(d) => Loaded(d)
      case None => InitialError(NotFoundMessage(instanceId))
  }

  /**
   * The load error message is never shown: the service swallows store errors,
   * so a failing store reads as a missing automation.
   */
  lemma StoreErrorReadsAsNotFound(db: Db, companyId: string, instanceId: string, message: string)
    requires companyId != "" && instanceId != ""
    ensures FetchInitial(db, companyId, instanceId, Some(message)) == InitialError(NotFoundMessage(instanceId))
    ensures forall fault :: FetchInitial(db, companyId, instanceId, fault).InitialError? ==>
              FetchInitial(db, companyId, instanceId, fault).message == NotFoundMessage(instanceId)
  {
  }

  /** The listener's view of the instance: its data with the id, or an error message. */
  datatype Live = Live(instance: Option<Record>, error: Option<string>)

  /**
   * The `onSnapshot` callbacks on `companies/{companyId}/company_automations/{instanceId}`:
   * a snapshot of an existing document gives its data with the id and clears
   * the error; a missing document and a listener failure clear the data and
   * set their message.
   */
  function OnInstanceSnapshot(db: Db, companyId: string, instanceId: string, listenerFault: bool): (r: Live)
    ensures listenerFault ==> r == Live(None, Some(ListenerErrorMessage))
    ensures !listenerFault ==> (r.instance.Some? <==> HasDoc(Instances(db, companyId), instanceId))
    ensures r.instance.Some? <==> r.error.None?
    ensures r.instance.Some? ==>
              r.instance.value == FirestoreService.Merged(Doc(instanceId, Lookup(Instances(db, companyId), instanceId).value))
  {
    if listenerFault then Live(None, Some(ListenerErrorMessage))
    else match Lookup(Instances(db, companyId), instanceId)
      case Some(data) => Live(Some(FirestoreService.Merged(Doc(instanceId, data))), None)
      case None => Live(None, Some(RemovedMessage))
  }

  // ---------------------------------------------------------------------------
  // The result section
  // ---------------------------------------------------------------------------

  const ErrorDefaultText: string := "Erro no processamento."

  /** What the "Resultado" section shows for a loaded instance. */
  datatype ResultView =
    | InProgress
    | DownloadButton
    | LinkUnavailable
    | ErrorShown(text: string)
    | Waiting

  /**
   * The switch on `status?.toLowerCase()`: running work, a finished run with
   * or without a file to fetch, a failed run with its message, and waiting
   * for anything else.
   */
  function ResultViewOf(status: string, storagePath: string, resultFileUrl: string, errorMessage: string): (v: ResultView)
    ensures v == InProgress <==> ToLowerAscii(status) in {"processing", "running"}
    ensures v == DownloadButton <==> ToLowerAscii(status) == "completed" && (storagePath != "" || resultFileUrl != "")
    ensures v == LinkUnavailable <==> ToLowerAscii(status) == "completed" && storagePath == "" && resultFileUrl == ""
    ensures v.ErrorShown? <==> ToLowerAscii(status) == "error"
    ensures v.ErrorShown? ==> v.text == if errorMessage != "" then errorMessage else ErrorDefaultText
  {
    var s := ToLowerAscii(status);
    if s == "processing" || s == "running" then InProgress
    else if s == "completed" then
      (if storagePath != "" || resultFileUrl != "" then DownloadButton else LinkUnavailable)
    else if s == "error" then ErrorShown(if errorMessage != "" then errorMessage else ErrorDefaultText)
    else Waiting
  }

  /** The status is compared without regard to letter case. */
  lemma StatusCaseInsensitive(status: string, storagePath: string, resultFileUrl: string, errorMessage: string)
    ensures ResultViewOf(ToLowerAscii(status), storagePath, resultFileUrl, errorMessage)
            == ResultViewOf(status, storagePath, resultFileUrl, errorMessage)
  {
    ToLowerIdempotent(status);
  }

  /** The statuses `markProcessing` and the update function write select the views the page expects. */
  lemma WrittenStatusesSelectViews(storagePath: string, resultFileUrl: string, errorMessage: string)
    ensures ResultViewOf("processing", storagePath, resultFileUrl, errorMessage) == InProgress
    ensures ResultViewOf("Running", storagePath, resultFileUrl, errorMessage) == InProgress
    ensures ResultViewOf("COMPLETED", "", "", errorMessage) == LinkUnavailable
    ensures ResultViewOf("Error", storagePath, resultFileUrl, "") == ErrorShown(ErrorDefaultText)
    ensures ResultViewOf("", storagePath, resultFileUrl, errorMessage) == Waiting
  {
    assert ToLowerAscii("Running") == "running";
    assert ToLowerAscii("COMPLETED") == "completed";
    assert ToLowerAscii("Error") == "error";
  }

  /** What the section shows, given the listener's state once it has answered. */
  datatype Section = StatusUnavailable | ListenerError(message: string) | Result(view: ResultView)

  function ResultSection(live: Live): (s: Section)
    ensures live.error.Some? ==> s == ListenerError(live.error.value)
    ensures live.error.None? && live.instance.None? ==> s == StatusUnavailable
    ensures live.error.None? && live.instance.Some? ==> s.Result?
    ensures s.Result? ==>
              live.error.None? && live.instance.Some?
              && var r := live.instance.value;
                 s.view == ResultViewOf(TextField(r, "status"), TextField(r, "storagePath"),
                                        TextField(r, "resultFileUrl"), TextField(r, "errorMessage"))
  {
    match live.error
    case Some(m) => ListenerError(m)
    case None =>
      match live.instance
      case None => StatusUnavailable
      case Some(r) =>
        Result(ResultViewOf(TextField(r, "status"), TextField(r, "storagePath"),
                            TextField(r, "resultFileUrl"), TextField(r, "errorMessage")))
  }

  /**
   * What the section shows follows the stored document: for an existing
   * instance, the view its status, paths and error message select; for a
   * deleted one, the removal message; for a failed listener, its message.
   */
  lemma SectionFollowsStore(db: Db, companyId: string, instanceId: string, listenerFault: bool)
    ensures var s := ResultSection(OnInstanceSnapshot(db, companyId, instanceId, listenerFault));
            && (listenerFault ==> s == ListenerError(ListenerErrorMessage))
            && (!listenerFault && !HasDoc(Instances(db, companyId), instanceId) ==> s == ListenerError(RemovedMessage))
            && (!listenerFault && HasDoc(Instances(db, companyId), instanceId) ==>
                  var r := FirestoreService.Merged(Doc(instanceId, Lookup(Instances(db, companyId), instanceId).value));
                  s == Result(ResultViewOf(TextField(r, "status"), TextField(r, "storagePath"),
                                           TextField(r, "resultFileUrl"), TextField(r, "errorMessage"))))
  {
  }

  // ---------------------------------------------------------------------------
  // Downloading the result
  // ---------------------------------------------------------------------------

  const DownloadSeparator: string := "/o/"
  const DefaultFileName: string := "resultado.xlsx"
  const NoInstanceMessage: string := "Dados da instância não disponíveis."
  const NoPathMessage: string := "Caminho do arquivo de resultado não encontrado."
  const ObjectNotFoundMessage: string := "Arquivo não encontrado."
  const UnauthorizedMessage: string := "Sem permissão para baixar."
  const DownloadFailedMessage: string := "Erro ao baixar o resultado."

  /**
   * The storage path of the result file, `""` when there is none: the
   * instance's `storagePath` when set; otherwise, from `resultFileUrl`, the
   * part of the URL's path after the first `"/o/"` with any `?` part cut off,
   * URL-decoded. `urlPathname` stands for `new URL(u).pathname` and `decode`
   * for `decodeURIComponent`; either failing (`None`) means no path, as the
   * page catches the exception.
   */
  function DownloadPath(storagePath: string, resultFileUrl: string,
                        urlPathname: string -> Option<string>, decode: string -> Option<string>): (p: string)
    ensures storagePath != "" ==> p == storagePath
    ensures storagePath == "" && resultFileUrl == "" ==> p == ""
    ensures storagePath == "" && p != "" ==>
              && urlPathname(resultFileUrl).Some?
              && var segments := Split(urlPathname(resultFileUrl).value, DownloadSeparator);
                 |segments| > 1 && decode(Split(segments[1], "?")[0]) == Some(p)
  {
    if storagePath != "" then storagePath
    else if resultFileUrl == "" then ""
    else match urlPathname(resultFileUrl)
      case None => ""
      case Some(pathname) =>
        var segments := Split(pathname, DownloadSeparator);
        if |segments| > 1 then decode(Split(segments[1], "?")[0]).GetOr("") else ""
  }

  /**
   * A Firebase Storage download URL, whose path is `<prefix>/o/<encoded object
   * path>`, yields the decoded object path.
   */
  lemma DownloadUrlGivesObjectPath(resultFileUrl: string, prefix: string, encoded: string, path: string,
                                   urlPathname: string -> Option<string>, decode: string -> Option<string>)
    requires urlPathname(resultFileUrl) == Some(prefix + DownloadSeparator + encoded)
    requires forall i :: 0 <= i < |prefix| ==> !OccursAt(prefix + DownloadSeparator + encoded, DownloadSeparator, i)
    requires forall i :: !OccursAt(encoded, DownloadSeparator, i)
    requires forall i :: !OccursAt(encoded, "?", i)
    requires resultFileUrl != "" && decode(encoded) == Some(path)
    ensures DownloadPath("", resultFileUrl, urlPathname, decode) == path
  {
    SplitAtFirst(prefix, DownloadSeparator, encoded);
    SplitWithout(encoded, DownloadSeparator);
    SplitWithout(encoded, "?");
  }

  /**
   * The name the file is saved under: `resultFileName` when set, else the
   * part of the path after its last `/`, else `"resultado.xlsx"`.
   */
  function FileName(resultFileName: string, path: string): (n: string)
    ensures resultFileName != "" ==> n == resultFileName
    ensures resultFileName == "" && path == "" ==> n == DefaultFileName
    ensures resultFileName == "" && path != "" ==>
              && |n| <= |path| && n == path[|path| - |n|..]
              && (forall j :: 0 <= j < |n| ==> n[j] != '/')
              && (|n| < |path| ==> path[|path| - |n| - 1] == '/')
  {
    if resultFileName != "" then resultFileName
    else if path != "" then AfterLast(path, '/')
    else DefaultFileName
  }

  /** For `folder/name` with a plain name, the saved file is called `name`. */
  lemma FileNameOfObjectPath(folder: string, name: string)
    requires forall j :: 0 <= j < |name| ==> name[j] != '/'
    ensures FileName("", folder + "/" + name) == name
  {
    var path := folder + "/" + name;
    var n := FileName("", path);
    assert path[|path| - |name| - 1] == '/';
    assert path[|path| - |name|..] == name;
  }

  /** What `getDownloadURL` gives: a URL, or a storage error code. */
  datatype Fetched = Url(url: string) | StorageError(code: string)

  /** The end of a download attempt: an error message, or the URL saved under a file name. */
  datatype Download = DownloadError(message: string) | Saved(url: string, fileName: string)

  /** The message for a storage error code. */
  function StorageErrorMessage(code: string): (m: string)
    ensures code == "storage/object-not-found" ==> m == ObjectNotFoundMessage
    ensures code == "storage/unauthorized" ==> m == UnauthorizedMessage
    ensures code != "storage/object-not-found" && code != "storage/unauthorized" ==> m == DownloadFailedMessage
  {
    if code == "storage/object-not-found" then ObjectNotFoundMessage
    else if code == "storage/unauthorized" then UnauthorizedMessage
    else DownloadFailedMessage
  }

  /**
   * `handleDownloadResult`: the live instance must be there and yield a path;
   * only then is the file fetched (`fetch` is `getDownloadURL` of the path).
   */
  function HandleDownload(instance: Option<Record>, urlPathname: string -> Option<string>,
                          decode: string -> Option<string>, fetch: string -> Fetched): (d: Download)
    ensures instance.None? ==> d == DownloadError(NoInstanceMessage)
    ensures instance.Some? ==>
              var r := instance.value;
              var path := DownloadPath(TextField(r, "storagePath"), TextField(r, "resultFileUrl"), urlPathname, decode);
              && (path == "" ==> d == DownloadError(NoPathMessage))
              && (path != "" && fetch(path).Url? ==>
                    d == Saved(fetch(path).url, FileName(TextField(r, "resultFileName"), path)))
              && (path != "" && fetch(path).StorageError? ==> d == DownloadError(StorageErrorMessage(fetch(path).code)))
  {
    match instance
    case None => DownloadError(NoInstanceMessage)
    case Some(r) =>
      var path := DownloadPath(TextField(r, "storagePath"), TextField(r, "resultFileUrl"), urlPathname, decode);
      var name := FileName(TextField(r, "resultFileName"), path);
      if path == "" then DownloadError(NoPathMessage)
      else match fetch(path)
        case Url(u) => Saved(u, name)
        case StorageError(code) => DownloadError(StorageErrorMessage(code))
  }

  /**
   * When the button is offered because `storagePath` is set, the download
   * always asks storage for exactly that path, whatever `resultFileUrl` holds,
   * and saves under the path's last segment unless a file name is given.
   */
  lemma StoragePathAlwaysFetched(r: Record, urlPathname: string -> Option<string>,
                                 decode: string -> Option<string>, fetch: string -> Fetched)
    requires TextField(r, "storagePath") != ""
    ensures var path := TextField(r, "storagePath");
            HandleDownload(Some(r), urlPathname, decode, fetch)
            == match fetch(path)
               case Url(u) => Saved(u, FileName(TextField(r, "resultFileName"), path))
               case StorageError(code) => DownloadError(StorageErrorMessage(code))
  {
  }

  // ---------------------------------------------------------------------------
  // The action block
  // ---------------------------------------------------------------------------

  const PdfProcessorTemplateId: string := "v192SC7bpgR4nNooJMKc"
  const EnvoysTemplateId: string := "WOIjGQMkLSB3NTgas2OF"
  const PaymentReminderTemplateId: string := "MGGct7RZTCgk2eWwDpb4"

  /** The interactive part of the page. */
  datatype ActionBlock =
    | LoadingActions
    | PdfUpload(instance: Record)
    | StartEnvoys(instance: Record, companyId: string)
    | PaymentReminder(instanceId: Value)
    | NoAction

  /** `details.template.id || instanceData.automationId`. */
  function DispatchId(template: Record, instance: Record): Value {
    var tid := Get(template, "id");
    if Truthy(tid) then tid else Get(instance, "automationId")
  }

  /**
   * `renderAutomationActionBlock`: a spinner until both loads have answered
   * with data; then the component for the template's id, and an info alert
   * for any other template.
   */
  function ActionBlockFor(loading: bool, details: Option<FirestoreService.Details>, live: Option<Record>,
                          companyId: string): (b: ActionBlock)
    ensures loading || details.None? || live.None? ==> b == LoadingActions
    ensures b.PdfUpload? ==> details.Some? && DispatchId(details.value.template, live.value) == Str(PdfProcessorTemplateId)
    ensures b.StartEnvoys? ==> details.Some? && DispatchId(details.value.template, live.value) == Str(EnvoysTemplateId)
                               && b.companyId == companyId
    ensures b.PaymentReminder? ==> details.Some? && DispatchId(details.value.template, live.value) == Str(PaymentReminderTemplateId)
                                   && b.instanceId == Get(live.value, "id")
    ensures !loading && details.Some? && live.Some? ==>
              var id := DispatchId(details.value.template, live.value);
              && (id == Str(PdfProcessorTemplateId) ==> b == PdfUpload(live.value))
              && (id == Str(EnvoysTemplateId) ==> b == StartEnvoys(live.value, companyId))
              && (id == Str(PaymentReminderTemplateId) ==> b == PaymentReminder(Get(live.value, "id")))
    ensures !loading && details.Some? && live.Some? ==>
              (b == NoAction <==> DispatchId(details.value.template, live.value)
                                  !in {Str(PdfProcessorTemplateId), Str(EnvoysTemplateId), Str(PaymentReminderTemplateId)})
  {
    if loading || details.None? || live.None? then LoadingActions
    else
      var id := DispatchId(details.value.template, live.value);
      if id == Str(PdfProcessorTemplateId) then PdfUpload(live.value)
      else if id == Str(EnvoysTemplateId) then StartEnvoys(live.value, companyId)
      else if id == Str(PaymentReminderTemplateId) then PaymentReminder(Get(live.value, "id"))
      else NoAction
  }

  /**
   * For loaded details whose template has no `id` field of its own, the
   * block is chosen by the id of the template document, which is the
   * instance's `automationId`.
   */
  lemma DispatchFollowsAutomationId(db: Db, companyId: string, instanceId: string)
    requires FetchInitial(db, companyId, instanceId, None).Loaded?
    ensures var d := FetchInitial(db, companyId, instanceId, None).details;
            "id" !in Lookup(db.templates, FirestoreService.TemplateIdOf(d.instance).value).value ==>
              forall live :: DispatchId(d.template, live) == Get(d.instance, "automationId")
  {
  }

  /**
   * Once both loads have answered from the same store, the component shown
   * is the one for the template the stored instance names, given the
   * instance the listener delivered; any other template shows the info alert.
   */
  lemma ActionBlockFollowsStoredTemplate(db: Db, companyId: string, instanceId: string, userCompanyId: string)
    requires FetchInitial(db, companyId, instanceId, None).Loaded?
    requires var d := FetchInitial(db, companyId, instanceId, None).details;
             "id" !in Lookup(db.templates, FirestoreService.TemplateIdOf(d.instance).value).value
    ensures var d := FetchInitial(db, companyId, instanceId, None).details;
            var live := OnInstanceSnapshot(db, companyId, instanceId, false).instance;
            var aid := Get(d.instance, "automationId");
            && live == Some(d.instance)
            && ActionBlockFor(false, Some(d), live, userCompanyId)
               == if aid == Str(PdfProcessorTemplateId) then PdfUpload(d.instance)
                  else if aid == Str(EnvoysTemplateId) then StartEnvoys(d.instance, userCompanyId)
                  else if aid == Str(PaymentReminderTemplateId) then PaymentReminder(Get(d.instance, "id"))
                  else NoAction
  {
    var d := FetchInitial(db, companyId, instanceId, None).details;
    DispatchFollowsAutomationId(db, companyId, instanceId);
    assert DispatchId(d.template, d.instance) == Get(d.instance, "automationId");
  }

  // ---------------------------------------------------------------------------
  // Action feedback
  // ---------------------------------------------------------------------------

  /** The message an action leaves: its kind (success or error) and text. */
  datatype ActionMessage = ActionMessage(success: bool, text: string)

  datatype Feedback = Feedback(inProgress: bool, message: Option<ActionMessage>)

  /** What an action component reports, and the user closing the message. */
  datatype ActionEvent = Started | Completed(success: bool, text: string) | Dismissed

  /** `handleProcessingStart`, `handleProcessingComplete` and the alert's `onClose`. */
  function OnAction(f: Feedback, e: ActionEvent): (r: Feedback)
    ensures e == Started ==> r.inProgress && r.message.None?
    ensures e.Completed? ==> !r.inProgress && r.message == Some(ActionMessage(e.success, e.text))
    ensures e == Dismissed ==> r.inProgress == f.inProgress && r.message.None?
  {
    match e
    case Started => Feedback(true, None)
    case Completed(ok, text) => Feedback(false, Some(ActionMessage(ok, text)))
    case Dismissed => f.(message := None)
  }

  function Replay(f: Feedback, events: seq<ActionEvent>): Feedback
    decreases |events|
  {
    if events == [] then f else Replay(OnAction(f, events[0]), events[1..])
  }

  lemma {:induction false} ReplayAppend(f: Feedback, a: seq<ActionEvent>, e: ActionEvent)
    ensures Replay(f, a + [e]) == OnAction(Replay(f, a), e)
    decreases |a|
  {
    if a == [] {
      assert a + [e] == [e];
    } else {
      assert (a + [e])[1..] == a[1..] + [e];
      ReplayAppend(OnAction(f, a[0]), a[1..], e);
    }
  }

  /**
   * Whatever happened before, a run that ends by completing shows exactly
   * that outcome and no spinner.
   */
  lemma LastCompletionShown(f: Feedback, events: seq<ActionEvent>, success: bool, text: string)
    ensures Replay(f, events + [Completed(success, text)]) == Feedback(false, Some(ActionMessage(success, text)))
  {
    ReplayAppend(f, events, Completed(success, text));
  }
}
