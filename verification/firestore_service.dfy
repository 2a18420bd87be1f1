/**
 * The web client's read helpers (src/services/firestoreService.ts): the
 * enabled automations of a company, the company an access code belongs to,
 * and an instance joined with its template. Each turns a store failure
 * (`fault`) into an empty answer instead of raising it.
 */
module FirestoreService {
  import opened Results
  import opened JsValues
  import opened Store
  import CloudFunctions

  /**
   * `{ id: doc.id, ...doc.data() }`: the fields with the document id added
   * under "id", unless the document has an "id" field of its own, which the
   * spread writes over it.
   */
  function Merged(d: Doc): (m: Record)
    ensures "id" in m
    ensures m["id"] == if "id" in d.data then d.data["id"] else Str(d.id)
    ensures forall k :: k != "id" ==> Agree(d.data, m, k)
  {
    map["id" := Str(d.id)] + d.data
  }

  /** Every document of a collection, merged with its id, in listing order. */
  function MergeAll(c: Collection): (r: seq<Record>)
    ensures |r| == |c|
    ensures forall i :: 0 <= i < |c| ==> r[i] == Merged(c[i])
  {
    seq(|c|, i requires 0 <= i < |c| => Merged(c[i]))
  }

  // ---------------------------------------------------------------------------
  // getCompanyAutomations
  // ---------------------------------------------------------------------------

  /**
   * The automation instances of a company whose `enabled` field is `true`,
   * each carrying its document id; `[]` for an empty company id (without a
   * query) and on any store error.
   */
  function GetCompanyAutomations(db: Db, companyId: string, fault: CloudFunctions.Fault): (r: seq<Record>)
    ensures companyId == "" || fault.Some? ==> r == []
    ensures forall m :: m in r ==> Get(m, "enabled") == Bool(true)
    ensures forall m :: m in r ==> exists d :: d in Instances(db, companyId) && m == Merged(d)
    ensures companyId != "" && fault.None? ==>
              forall d :: d in Instances(db, companyId) && Get(d.data, "enabled") == Bool(true) ==> Merged(d) in r
  {
    if companyId == "" || fault.Some? then []
    else
      var hits := WhereEq(Instances(db, companyId), "enabled", Bool(true));
      var r := MergeAll(hits);
      assert forall m :: m in r ==> exists d :: d in hits && m == Merged(d) by {
        forall m | m in r
          ensures exists d :: d in hits && m == Merged(d)
        {
          var i :| 0 <= i < |r| && r[i] == m;
          assert hits[i] in hits;
        }
      }
      assert forall d :: d in hits ==> Merged(d) in r by {
        forall d | d in hits
          ensures Merged(d) in r
        {
          var i :| 0 <= i < |hits| && hits[i] == d;
          assert r[i] == Merged(d);
        }
      }
      r
  }

  /** The listing order is kept: the answer is the filtered subcollection, merged element by element. */
  lemma GetCompanyAutomationsInOrder(db: Db, companyId: string)
    requires companyId != ""
    ensures var r := GetCompanyAutomations(db, companyId, None);
            var hits := WhereEq(Instances(db, companyId), "enabled", Bool(true));
            |r| == |hits| && forall i :: 0 <= i < |r| ==> r[i] == Merged(hits[i])
  {
  }

  // ---------------------------------------------------------------------------
  // findCompanyByCode
  // ---------------------------------------------------------------------------

  /**
   * `{id, data}` of the first company whose `accessCode` equals the code;
   * `null` for an empty code, when no company matches and on any store error.
   */
  function FindCompanyByCode(db: Db, code: string, fault: CloudFunctions.Fault): (r: Option<Doc>)
    ensures code == "" || fault.Some? ==> r.None?
    ensures r.Some? ==> r.value in db.companies && Get(r.value.data, "accessCode") == Str(code)
    ensures code != "" && fault.None? && r.None? ==>
              forall d :: d in db.companies ==> Get(d.data, "accessCode") != Str(code)
  {
    if code == "" || fault.Some? then None
    else FirstWhere(db.companies, "accessCode", Str(code))
  }

  /** A store error is indistinguishable from a store holding no company at all. */
  lemma FindFaultLooksLikeNoMatch(db: Db, code: string, message: string)
    ensures FindCompanyByCode(db, code, Some(message)) == FindCompanyByCode(db.(companies := []), code, None)
  {
  }

  /**
   * The client-side lookup and the `validateCompanyCode` function agree: one
   * finds a company exactly when the other accepts the code, and it is the
   * same company.
   */
  lemma FindAgreesWithValidate(db: Db, code: string, fault: CloudFunctions.Fault)
    ensures var found := FindCompanyByCode(db, code, fault);
            var checked := CloudFunctions.ValidateCompanyCode(db, code, fault).result;
            && (found.Some? <==> checked.Ok?)
            && (found.Some? ==> checked.value == CloudFunctions.CompanyFound(found.value.id))
  {
  }

  // ---------------------------------------------------------------------------
  // getCompanyAutomationDetails
  // ---------------------------------------------------------------------------

  /** An instance joined with its template, both carrying their document ids. */
  datatype Details = Details(instance: Record, template: Record)

  /** The template id an instance names: its `automationId`, when that is a non-empty string. */
  function TemplateIdOf(instance: Record): (r: Option<string>)
    ensures r.Some? <==> Get(instance, "automationId").Str? && Get(instance, "automationId").s != ""
    ensures r.Some? ==> Get(instance, "automationId") == Str(r.value)
  {
    match Get(instance, "automationId")
    case Str(s) => if s != "" then Some(s) else None
    case _ => None
  }

  /**
   * The instance `companies/{companyId}/company_automations/{instanceId}` and
   * the template `automations/{automationId}` it names. `null` when an id is
   * empty, the instance does not exist, it names no template, the template
   * does not exist, or the store fails.
   */
  function GetCompanyAutomationDetails(db: Db, companyId: string, instanceId: string,
                                       fault: CloudFunctions.Fault): (r: Option<Details>)
    ensures companyId == "" || instanceId == "" || fault.Some? ==> r.None?
    ensures Lookup(Instances(db, companyId), instanceId).None? ==> r.None?
    ensures r.Some? ==>
              && Doc(instanceId, Lookup(Instances(db, companyId), instanceId).value) in Instances(db, companyId)
              && r.value.instance == Merged(Doc(instanceId, Lookup(Instances(db, companyId), instanceId).value))
              && TemplateIdOf(r.value.instance).Some?
              && var tid := TemplateIdOf(r.value.instance).value;
                 && Lookup(db.templates, tid).Some?
                 && r.value.template == Merged(Doc(tid, Lookup(db.templates, tid).value))
    ensures r.None? && companyId != "" && instanceId != "" && fault.None?
            && Lookup(Instances(db, companyId), instanceId).Some? ==>
              var instance := Merged(Doc(instanceId, Lookup(Instances(db, companyId), instanceId).value));
              TemplateIdOf(instance).None? || Lookup(db.templates, TemplateIdOf(instance).value).None?
  {
    if companyId == "" || instanceId == "" || fault.Some? then None
    else match Lookup(Instances(db, companyId), instanceId)
      case None => None
      case Some(data) =>
        var instance := Merged(Doc(instanceId, data));
        match TemplateIdOf(instance)
        case None => None
        case Some(tid) =>
          match Lookup(db.templates, tid)
          case None => None
          case Some(t) => Some(Details(instance, Merged(Doc(tid, t))))
  }
}
