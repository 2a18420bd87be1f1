/**
 * What the action components of the automation page do when their button is
 * pressed, as a trace of effects: the callbacks to the page
 * (`onProcessingStart`, `onProcessingComplete`), the store reads, uploads,
 * Cloud Function calls and webhook posts they issue, and the messages they
 * show themselves. The answers of the outside world (the webhook's response,
 * the upload's result) are parameters of the handlers.
 */
module ActionEffects {
  import opened Results
  import opened JsValues
  import AutomationDetail

  datatype Effect =
    | Notify(event: AutomationDetail.ActionEvent)
    | QueryEnabledClients(companyId: string)
    | Upload(path: string)
    | CallMarkProcessing(companyId: string, instanceId: Value)
    | Post(url: string, body: Value)
    | ShowUploadError(message: string)

  /** What `fetch` yields: a response (its status, `text()` and whether `json()` throws), or a rejection. */
  datatype Response =
    | Responded(status: int, text: string, jsonFault: Option<string>)
    | NetworkFailure(message: string)

  /** The scheme and host of the n8n webhooks, followed by the path prefix every webhook shares. */
  const WebhookScheme: string := "https://"
  const WebhookBase: string := WebhookScheme + "automind-ia.app.n8n.cloud/webhook/"

  /** `response.ok`: a status in the range 200-299. */
  predicate OkStatus(status: int) {
    200 <= status <= 299
  }

  /** `message || fallback` for a caught error's message. */
  function MessageOr(message: string, fallback: string): (m: string)
    ensures message != "" ==> m == message
    ensures message == "" ==> m == fallback
  {
    if message != "" then message else fallback
  }

  /** The callbacks to the page, in the order they are made. */
  function Notifications(t: seq<Effect>): (n: seq<AutomationDetail.ActionEvent>)
    ensures |n| <= |t|
    ensures forall e :: e in n <==> Notify(e) in t
    decreases |t|
  {
    if t == [] then []
    else
      var init := t[..|t| - 1];
      assert t == init + [t[|t| - 1]];
      Notifications(init) + (if t[|t| - 1].Notify? then [t[|t| - 1].event] else [])
  }

  lemma {:induction false} NotificationsAppend(a: seq<Effect>, b: seq<Effect>)
    ensures Notifications(a + b) == Notifications(a) + Notifications(b)
    decreases |b|
  {
    if b == [] {
      assert a + b == a;
    } else {
      var init := b[..|b| - 1];
      assert (a + b)[..|a + b| - 1] == a + init;
      NotificationsAppend(a, init);
    }
  }

  /** The trace posts to a webhook. */
  ghost predicate Posted(t: seq<Effect>) {
    exists i :: 0 <= i < |t| && t[i].Post?
  }

  /** A completion callback. */
  predicate IsReport(e: Effect) {
    e.Notify? && e.event.Completed?
  }

  /**
   * The trace reports exactly once, and that report is its last effect: the
   * page learns the outcome once and nothing follows it.
   */
  predicate ReportsOnce(t: seq<Effect>) {
    && |t| > 0
    && IsReport(t[|t| - 1])
    && forall i :: 0 <= i < |t| - 1 ==> !IsReport(t[i])
  }

  /** The one report of a trace that reports once. */
  function FinalReport(t: seq<Effect>): AutomationDetail.ActionEvent
    requires ReportsOnce(t)
  {
    t[|t| - 1].event
  }

  /**
   * Whatever the page showed before, the callbacks of a trace that reports
   * once leave it idle with the report's message.
   */
  lemma ReportShown(f: AutomationDetail.Feedback, t: seq<Effect>)
    requires ReportsOnce(t)
    ensures AutomationDetail.Replay(f, Notifications(t))
            == AutomationDetail.Feedback(false, Some(AutomationDetail.ActionMessage(FinalReport(t).success, FinalReport(t).text)))
  {
    var init := t[..|t| - 1];
    assert t == init + [t[|t| - 1]];
    NotificationsAppend(init, [t[|t| - 1]]);
    assert Notifications([t[|t| - 1]]) == [FinalReport(t)] by {
      assert [t[|t| - 1]][..0] == [];
    }
    AutomationDetail.LastCompletionShown(f, Notifications(init), FinalReport(t).success, FinalReport(t).text);
  }

  /** Putting effects before a trace that reports once keeps it so, when they report nothing. */
  lemma PrefixKeepsReportsOnce(a: seq<Effect>, t: seq<Effect>)
    requires forall i :: 0 <= i < |a| ==> !IsReport(a[i])
    requires ReportsOnce(t)
    ensures ReportsOnce(a + t) && FinalReport(a + t) == FinalReport(t)
  {
    var s := a + t;
    forall i | 0 <= i < |s| - 1
      ensures !IsReport(s[i])
    {
      if i < |a| {
        assert s[i] == a[i];
      } else {
        assert s[i] == t[i - |a|];
      }
    }
  }

  /** Reporting twice in a row that the work started is the same as reporting it once. */
  lemma RestartIsHarmless(f: AutomationDetail.Feedback)
    ensures AutomationDetail.OnAction(AutomationDetail.OnAction(f, AutomationDetail.Started), AutomationDetail.Started)
            == AutomationDetail.OnAction(f, AutomationDetail.Started)
  {
  }
}
