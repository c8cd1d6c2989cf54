/** The commerce platform's Admin GraphQL API as the handlers see it: the
    records they read back, the calls they issue (operation and variables;
    a handler's trace is the sequence of these), and the replies a stub
    gives. Whether a call takes effect on the platform is the stub's
    business; the handlers only read the reply. */
module AdminApi {
  import opened JsValues

  datatype Company = Company(id: string, name: string)

  /** One `companyContactProfiles` entry: the contact's id and its company. */
  datatype ContactProfile = ContactProfile(id: string, company: Option<Company>)

  /** A `customer` record: the `custom.rep_code` metafield value and the contact profiles. */
  datatype Customer = Customer(repCode: Option<string>, profiles: Option<seq<ContactProfile>>)

  datatype UserError = UserError(message: string)

  /** A fulfillment order and the id of the location it is assigned to, if any. */
  datatype FulfillmentOrder = FulfillmentOrder(id: string, location: Option<string>)

  /** One GraphQL request: the operation and its variables. */
  datatype Call =
    | CustomerCompanyQuery(customerGid: string)        // rep-code metafield and profile companies
    | CompanySearch(filter: string)                    // `companies(first: 250, query: $query)`
    | CustomerProfilesQuery(customerGid: string)       // contact-profile ids only
    | ContactRemove(companyContactId: string)          // `companyContactRemoveFromCompany`
    | AssignCustomerAsContact(companyId: string, customerGid: string)
    | FulfillmentOrdersQuery(orderId: string)          // `fulfillmentOrders(first: 10)`
    | FulfillmentOrderMove(id: string, locationId: string)

  /** What a GraphQL helper hands back for one call. A reply of a shape the
      caller does not expect reads as a response missing the fields it reads. */
  datatype Reply =
    | Threw                                            // the helper raised instead of returning
    | Blank                                            // JSON without the fields the caller reads
    | CustomerData(customer: Option<Customer>)         // `data.customer`
    | CompanyNodes(companies: Option<seq<Company>>)    // `data.companies.edges[*].node`
    | AssignResult(userErrors: Option<seq<UserError>>) // `data.companyAssignCustomerAsContact.userErrors`
    | FulfillmentOrderNodes(fulfillmentOrders: Option<seq<FulfillmentOrder>>)

  /** The remote platform, stubbed: the reply it gives each call. */
  type Api = Call -> Reply

  /** The position of the first call in a sequential run whose helper throws,
      or the length of the run when none does. */
  function FirstFailure(calls: seq<Call>, api: Api): (k: nat)
    ensures k <= |calls|
    ensures forall i :: 0 <= i < k ==> !api(calls[i]).Threw?
    ensures k < |calls| ==> api(calls[k]).Threw?
  {
    if calls == [] then 0
    else if api(calls[0]).Threw? then 0
    else 1 + FirstFailure(calls[1..], api)
  }

  /** A sequential run of awaited calls is cut short by the first throw. */
  predicate Aborted(calls: seq<Call>, api: Api) {
    FirstFailure(calls, api) < |calls|
  }

  /** The calls of a sequential run that actually go out: all of them, or
      every call up to and including the first one that throws. */
  function Sent(calls: seq<Call>, api: Api): (sent: seq<Call>)
    ensures sent <= calls
    ensures !Aborted(calls, api) ==> sent == calls
    ensures Aborted(calls, api) ==> |sent| > 0 && api(sent[|sent| - 1]).Threw?
    ensures forall i :: 0 <= i < |sent| - 1 ==> !api(sent[i]).Threw?
  {
    var k := FirstFailure(calls, api);
    if k < |calls| then calls[..k + 1] else calls
  }

  lemma {:induction false} FirstFailureAppend(a: seq<Call>, b: seq<Call>, api: Api)
    ensures FirstFailure(a + b, api)
         == if Aborted(a, api) then FirstFailure(a, api) else |a| + FirstFailure(b, api)
  {
    if a != [] {
      assert (a + b)[1..] == a[1..] + b;
      FirstFailureAppend(a[1..], b, api);
    } else {
      assert a + b == b;
    }
  }

  /** No call of the run throws. */
  predicate Clean(calls: seq<Call>, api: Api) {
    forall j :: 0 <= j < |calls| ==> !api(calls[j]).Threw?
  }

  lemma CleanExtend(done: seq<Call>, c: Call, api: Api)
    requires Clean(done, api) && !api(c).Threw?
    ensures Clean(done + [c], api)
  {
    assert forall j :: 0 <= j < |done| ==> (done + [c])[j] == done[j];
  }

  /** After a clean prefix, the run behaves as the rest of it does. */
  lemma {:induction false} RunAfterClean(done: seq<Call>, rest: seq<Call>, api: Api)
    requires Clean(done, api)
    ensures FirstFailure(done + rest, api) == |done| + FirstFailure(rest, api)
    ensures Aborted(done + rest, api) == Aborted(rest, api)
    ensures Sent(done + rest, api) == done + Sent(rest, api)
  {
    FirstFailureAppend(done, rest, api);
    var k := FirstFailure(rest, api);
    if k < |rest| {
      assert (done + rest)[..|done| + k + 1] == done + rest[..k + 1];
    }
  }

  /** A call that returns extends the clean prefix, ahead of the rest of the run. */
  lemma Proceed(done: seq<Call>, c: Call, rest: seq<Call>, api: Api)
    requires Clean(done, api) && !api(c).Threw?
    ensures Clean(done + [c], api)
    ensures done + ([c] + rest) == (done + [c]) + rest
  {
    CleanExtend(done, c, api);
  }

  /** A throwing call after a clean prefix is the last call that goes out. */
  lemma StopAt(done: seq<Call>, c: Call, rest: seq<Call>, api: Api)
    requires Clean(done, api) && api(c).Threw?
    ensures Aborted(done + ([c] + rest), api)
    ensures Sent(done + ([c] + rest), api) == done + [c]
  {
    RunAfterClean(done, [c] + rest, api);
    assert FirstFailure([c] + rest, api) == 0;
    assert ([c] + rest)[..1] == [c];
  }
}
