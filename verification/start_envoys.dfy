/**
 * The "Envios Automáticos" action (src/components/automations/StartEnvoysAction.tsx):
 * three checks that report failure without starting, then a start report, a
 * read of the company's enabled clients, one webhook post carrying them and
 * the instance's configuration, and one final report.
 *
 * `uid` is the signed-in user's uid ("" when nobody is signed in),
 * `queryFault` a failing client read and `response` what the webhook answers.
 */
module StartEnvoys {
  import opened Results
  import opened JsStrings
  import opened JsValues
  import opened Store
  import AutomationDetail
  import opened ActionEffects

  const WebhookUrl: string := WebhookBase + "c50a4f42-258d-40d4-8fab-4c14f3bcc993"

  /** The prefix of the placeholder the URL had before it was configured. */
  const PlaceholderPrefix: string := "SUA_URL"

  const NoIdentityMessage: string := "Não foi possível identificar sua empresa ou usuário."
  const NoWebhookMessage: string := "Erro de configuração: URL do Webhook para Envios não definida."
  const NoConfigMessage: string := "Configuração da automação 'Envios Automáticos' não encontrada ou inválida."
  const NoClientsMessage: string := "Nenhum cliente habilitado para envio na lista de gerenciamento."
  const RequestedMessage: string := "Processo de envios automáticos foi solicitado com sucesso!"
  const UnknownErrorMessage: string := "Ocorreu um erro desconhecido ao iniciar os envios."

  /** The webhook URL is configured: not empty and not the placeholder. */
  predicate WebhookConfigured(url: string) {
    url != "" && !StartsWith(url, PlaceholderPrefix)
  }

  /**
   * The URL in the source is a configured one, so that check never fails.
   * The PDF action has its own URL and placeholder prefix, hence its own lemma.
   */
  lemma WebhookUrlIsConfigured()
    ensures WebhookConfigured(WebhookUrl)
  {
    assert WebhookUrl[0] == WebhookBase[0] == WebhookScheme[0];
  }

  /** The company's clients whose `enabled` field is `true`. */
  function EnabledClients(db: Db, companyId: string): (c: Collection)
    ensures forall d :: d in c <==> d in Clients(db, companyId) && Get(d.data, "enabled") == Bool(true)
  {
    WhereEq(Clients(db, companyId), "enabled", Bool(true))
  }

  /** The fields of a client the webhook receives. */
  const ClientKeys: set<string> := {"clientId", "name", "phone", "email", "responsible", "driveFileNameHint"}

  /** A client as the webhook receives it; a falsy file-name hint is sent as "". */
  function ClientForWebhook(d: Doc): (v: Value)
    ensures v.Obj? && v.fields.Keys == ClientKeys
    ensures v.fields["clientId"] == Str(d.id)
    ensures forall k :: k in {"name", "phone", "email", "responsible"} ==> v.fields[k] == Get(d.data, k)
    ensures Truthy(Get(d.data, "driveFileNameHint")) ==> v.fields["driveFileNameHint"] == Get(d.data, "driveFileNameHint")
    ensures !Truthy(Get(d.data, "driveFileNameHint")) ==> v.fields["driveFileNameHint"] == Str("")
  {
    var hint := Get(d.data, "driveFileNameHint");
    Obj(map["clientId" := Str(d.id), "name" := Get(d.data, "name"), "phone" := Get(d.data, "phone"),
            "email" := Get(d.data, "email"), "responsible" := Get(d.data, "responsible"),
            "driveFileNameHint" := if Truthy(hint) then hint else Str("")])
  }

  /** Every client, in order, as the webhook receives it. */
  function ClientList(c: Collection): (l: seq<Value>)
    ensures |l| == |c|
    ensures forall i :: 0 <= i < |c| ==> l[i] == ClientForWebhook(c[i])
  {
    seq(|c|, i requires 0 <= i < |c| => ClientForWebhook(c[i]))
  }

  /** The body of the webhook post. */
  function Payload(instance: Record, companyId: string, uid: string, clients: Collection): (v: Value)
    ensures v.Obj? && v.fields.Keys == {"triggeringUserId", "companyId", "instanceId", "automationId", "config", "clientList"}
    ensures v.fields["triggeringUserId"] == Str(uid) && v.fields["companyId"] == Str(companyId)
    ensures v.fields["instanceId"] == Get(instance, "id") && v.fields["automationId"] == Get(instance, "automationId")
    ensures v.fields["config"] == Get(instance, "config")
    ensures v.fields["clientList"] == Arr(ClientList(clients))
  {
    Obj(map["triggeringUserId" := Str(uid), "companyId" := Str(companyId), "instanceId" := Get(instance, "id"),
            "automationId" := Get(instance, "automationId"), "config" := Get(instance, "config"),
            "clientList" := Arr(ClientList(clients))])
  }

  /** The text of the error thrown for a response outside 200-299. */
  function StatusFailureMessage(status: int, text: string): string {
    "Falha ao iniciar envios (n8n status " + IntToString(status) + "): " + text
  }

  /** The final report once the post is made. */
  function ReportResponse(r: Response): (e: AutomationDetail.ActionEvent)
    ensures e.Completed?
    ensures e.success <==> r.Responded? && OkStatus(r.status) && r.jsonFault.None?
    ensures r.Responded? && !OkStatus(r.status) ==> e.text == StatusFailureMessage(r.status, r.text)
    ensures e.success ==> e.text == RequestedMessage
    ensures r.NetworkFailure? ==> e.text == MessageOr(r.message, UnknownErrorMessage)
    ensures r.Responded? && OkStatus(r.status) && r.jsonFault.Some? ==>
              e.text == MessageOr(r.jsonFault.value, UnknownErrorMessage)
  {
    match r
    case NetworkFailure(m) => AutomationDetail.Completed(false, MessageOr(m, UnknownErrorMessage))
    case Responded(status, text, jsonFault) =>
      if !OkStatus(status) then AutomationDetail.Completed(false, StatusFailureMessage(status, text))
      else if jsonFault.Some? then AutomationDetail.Completed(false, MessageOr(jsonFault.value, UnknownErrorMessage))
      else AutomationDetail.Completed(true, RequestedMessage)
  }

  /** The checks made before anything starts, in order; `Some` is the failure reported. */
  function PreCheck(instance: Record, companyId: string, uid: string): (r: Option<string>)
    ensures r.None? <==> companyId != "" && uid != "" && Truthy(Get(instance, "config"))
    ensures (companyId == "" || uid == "") ==> r == Some(NoIdentityMessage)
    ensures companyId != "" && uid != "" && !Truthy(Get(instance, "config")) ==> r == Some(NoConfigMessage)
  {
    WebhookUrlIsConfigured();
    if companyId == "" || uid == "" then Some(NoIdentityMessage)
    else if !WebhookConfigured(WebhookUrl) then Some(NoWebhookMessage)
    else if !Truthy(Get(instance, "config")) then Some(NoConfigMessage)
    else None
  }

  /** `handleStartEnvoys`: the effects of one press of the button. */
  function HandleStartEnvoys(db: Db, instance: Record, companyId: string, uid: string,
                             queryFault: Option<string>, response: Response): (t: seq<Effect>)
    ensures ReportsOnce(t)
    ensures PreCheck(instance, companyId, uid).Some? ==>
              t == [Notify(AutomationDetail.Completed(false, PreCheck(instance, companyId, uid).value))]
    ensures PreCheck(instance, companyId, uid).None? ==>
              |t| > 2 && t[..2] == [Notify(AutomationDetail.Started), QueryEnabledClients(companyId)]
    ensures PreCheck(instance, companyId, uid).None? && queryFault.Some? ==>
              t[2..] == [Notify(AutomationDetail.Completed(false, MessageOr(queryFault.value, UnknownErrorMessage)))]
    ensures PreCheck(instance, companyId, uid).None? && queryFault.None? && EnabledClients(db, companyId) == [] ==>
              t[2..] == [Notify(AutomationDetail.Completed(false, NoClientsMessage))]
    ensures PreCheck(instance, companyId, uid).None? && queryFault.None? && EnabledClients(db, companyId) != [] ==>
              t[2..] == [Post(WebhookUrl, Payload(instance, companyId, uid, EnabledClients(db, companyId))),
                         Notify(ReportResponse(response))]
  {
    match PreCheck(instance, companyId, uid)
    case Some(message) => [Notify(AutomationDetail.Completed(false, message))]
    case None =>
      [Notify(AutomationDetail.Started), QueryEnabledClients(companyId)] +
      match queryFault
      case Some(m) => [Notify(AutomationDetail.Completed(false, MessageOr(m, UnknownErrorMessage)))]
      case None =>
        var clients := EnabledClients(db, companyId);
        if clients == [] then [Notify(AutomationDetail.Completed(false, NoClientsMessage))]
        else [Post(WebhookUrl, Payload(instance, companyId, uid, clients)), Notify(ReportResponse(response))]
  }

  /** The only webhook post is to the envoys URL and carries exactly the company's enabled clients. */
  lemma PostCarriesEnabledClients(db: Db, instance: Record, companyId: string, uid: string,
                                  queryFault: Option<string>, response: Response, url: string, body: Value)
    requires Post(url, body) in HandleStartEnvoys(db, instance, companyId, uid, queryFault, response)
    ensures url == WebhookUrl && body == Payload(instance, companyId, uid, EnabledClients(db, companyId))
    ensures forall v :: v in body.fields["clientList"].items <==>
              exists d :: d in Clients(db, companyId) && Get(d.data, "enabled") == Bool(true) && v == ClientForWebhook(d)
  {
    var clients := EnabledClients(db, companyId);
    var list := body.fields["clientList"].items;
    forall v | v in list
      ensures exists d :: d in Clients(db, companyId) && Get(d.data, "enabled") == Bool(true) && v == ClientForWebhook(d)
    {
      var i :| 0 <= i < |list| && list[i] == v;
      assert clients[i] in clients;
    }
    forall d | d in Clients(db, companyId) && Get(d.data, "enabled") == Bool(true)
      ensures ClientForWebhook(d) in list
    {
      assert d in clients;
      var i :| 0 <= i < |clients| && clients[i] == d;
      assert list[i] == ClientForWebhook(d);
    }
  }

  /**
   * The webhook is posted exactly when the checks pass, the read succeeds
   * and at least one client is enabled.
   */
  lemma PostedIffClientsEnabled(db: Db, instance: Record, companyId: string, uid: string,
                                queryFault: Option<string>, response: Response)
    ensures (exists url, body :: Post(url, body) in HandleStartEnvoys(db, instance, companyId, uid, queryFault, response))
            <==> PreCheck(instance, companyId, uid).None? && queryFault.None? && EnabledClients(db, companyId) != []
  {
    var t := HandleStartEnvoys(db, instance, companyId, uid, queryFault, response);
    if PreCheck(instance, companyId, uid).None? && queryFault.None? && EnabledClients(db, companyId) != [] {
      assert t[2] == Post(WebhookUrl, Payload(instance, companyId, uid, EnabledClients(db, companyId)));
    }
  }

  /** Success is reported exactly when the post was made and the webhook answered 2xx with JSON. */
  lemma SuccessMeansAccepted(db: Db, instance: Record, companyId: string, uid: string,
                             queryFault: Option<string>, response: Response)
    ensures var t := HandleStartEnvoys(db, instance, companyId, uid, queryFault, response);
            FinalReport(t).success <==>
              && PreCheck(instance, companyId, uid).None? && queryFault.None? && EnabledClients(db, companyId) != []
              && response.Responded? && OkStatus(response.status) && response.jsonFault.None?
  {
  }

  /** After the press the page is idle and shows the final report, whatever it showed before. */
  lemma PageShowsOutcome(f: AutomationDetail.Feedback, db: Db, instance: Record, companyId: string, uid: string,
                         queryFault: Option<string>, response: Response)
    ensures var t := HandleStartEnvoys(db, instance, companyId, uid, queryFault, response);
            var shown := AutomationDetail.Replay(f, Notifications(t));
            !shown.inProgress && shown.message.Some?
            && shown.message.value.success == FinalReport(t).success
  {
    ReportShown(f, HandleStartEnvoys(db, instance, companyId, uid, queryFault, response));
  }
}
