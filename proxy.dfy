/** The storefront app-proxy endpoint: one POST action that dispatches on an
    `actionType` discriminator to fetch the customer's company, list the
    companies sharing a rep code, or move the customer to another company. */
module Proxy {
  import opened JsValues
  import opened AdminApi

  /** The decoded request body; every field may be absent. */
  datatype ProxyRequest = ProxyRequest(
    actionType: Option<string>,
    customerId: Option<string>,
    repCode: Option<string>,
    companyId: Option<string>)

  /** The JSON bodies the endpoint answers with. */
  datatype Body =
    | ErrorBody(error: string)
    | CompanyBody(company: Option<Company>, repCode: string)
    | CompaniesBody(companies: seq<Company>)
    | SuccessBody

  datatype JsonResponse = JsonResponse(status: int, body: Body)

  /** An answer together with the GraphQL calls issued for it, in order. */
  datatype Exchange = Exchange(response: JsonResponse, trace: seq<Call>)

  /** A request that passed validation: the closed set of actions, each with
      the fields it needs. */
  datatype Command =
    | FetchCompanyCmd(customerId: string)
    | FetchRepCompaniesCmd(repCode: string)
    | AssignCompanyCmd(customerId: string, companyId: string)

  const MissingActionType := JsonResponse(400, ErrorBody("Missing actionType"))
  const MissingCustomerId := JsonResponse(400, ErrorBody("Missing customerId"))
  const MissingAssignFields := JsonResponse(400, ErrorBody("Missing customerId or companyId"))
  const InvalidActionType := JsonResponse(400, ErrorBody("Invalid actionType"))
  const InternalError := JsonResponse(500, ErrorBody("Internal server error"))

  const CustomerGidPrefix := "gid://shopify/Customer/"
  const RepCodeFilterPrefix := "metafields.custom.rep_codes:\""

  function CustomerGid(customerId: string): string {
    CustomerGidPrefix + customerId
  }

  /** Recovers the customer id from a customer gid. */
  function CustomerIdOf(gid: string): Option<string> {
    if CustomerGidPrefix <= gid then Some(gid[|CustomerGidPrefix|..]) else None
  }

  /** The customer gid carries the customer id unchanged. */
  lemma CustomerGidRoundTrip(customerId: string)
    ensures CustomerIdOf(CustomerGid(customerId)) == Some(customerId)
  {
    assert CustomerGid(customerId)[|CustomerGidPrefix|..] == customerId;
  }

  /** The company search filter for a rep code (no quoting or escaping). */
  function RepCodeFilter(repCode: string): string {
    RepCodeFilterPrefix + repCode + "\""
  }

  /** Recovers the rep code from a search filter. */
  function RepCodeOfFilter(filter: string): Option<string> {
    if RepCodeFilterPrefix <= filter && |filter| > |RepCodeFilterPrefix| && filter[|filter| - 1] == '"'
    then Some(filter[|RepCodeFilterPrefix|..|filter| - 1])
    else None
  }

  /** The filter carries the rep code unchanged. */
  lemma RepCodeFilterRoundTrip(repCode: string)
    ensures RepCodeOfFilter(RepCodeFilter(repCode)) == Some(repCode)
  {
    var f := RepCodeFilter(repCode);
    assert f[|RepCodeFilterPrefix|..|f| - 1] == repCode;
  }

  /** Checks the discriminator and the action's required fields. */
  function Validate(req: ProxyRequest): (r: Result<Command, JsonResponse>)
    ensures r.Err? ==> r.error.status == 400 && r.error.body.ErrorBody?
    ensures !Truthy(req.actionType) ==> r == Err(MissingActionType)
    ensures Truthy(req.actionType) &&
            req.actionType.value !in {"fetchCompany", "fetchRepCompanies", "assignCompany"} ==>
              r == Err(InvalidActionType)
    ensures req.actionType == Some("fetchCompany") ==>
              r == if Truthy(req.customerId) then Ok(FetchCompanyCmd(req.customerId.value))
                   else Err(MissingCustomerId)
    ensures req.actionType == Some("fetchRepCompanies") ==>
              r == Ok(FetchRepCompaniesCmd(OrElse(req.repCode, "")))
    ensures req.actionType == Some("assignCompany") ==>
              r == if Truthy(req.customerId) && Truthy(req.companyId)
                   then Ok(AssignCompanyCmd(req.customerId.value, req.companyId.value))
                   else Err(MissingAssignFields)
    ensures r.Ok? && r.value.FetchCompanyCmd? ==> r.value.customerId != ""
    ensures r.Ok? && r.value.AssignCompanyCmd? ==> r.value.customerId != "" && r.value.companyId != ""
  {
    if !Truthy(req.actionType) then Err(MissingActionType)
    else if req.actionType.value == "fetchCompany" then
      if !Truthy(req.customerId) then Err(MissingCustomerId)
      else Ok(FetchCompanyCmd(req.customerId.value))
    else if req.actionType.value == "fetchRepCompanies" then
      Ok(FetchRepCompaniesCmd(OrElse(req.repCode, "")))
    else if req.actionType.value == "assignCompany" then
      if !Truthy(req.customerId) || !Truthy(req.companyId) then Err(MissingAssignFields)
      else Ok(AssignCompanyCmd(req.customerId.value, req.companyId.value))
    else Err(InvalidActionType)
  }

  /** The company of the first contact profile, if there is a first profile and it has one. */
  function FirstCompany(reply: Reply): Option<Company> {
    if reply.CustomerData? && reply.customer.Some? && reply.customer.value.profiles.Some? &&
       |reply.customer.value.profiles.value| > 0
    then reply.customer.value.profiles.value[0].company
    else None
  }

  /** The rep-code metafield value, or "" when the customer or the value is missing. */
  function RepCodeOf(reply: Reply): string {
    if reply.CustomerData? && reply.customer.Some? && reply.customer.value.repCode.Some?
    then reply.customer.value.repCode.value
    else ""
  }

  /** `fetchCompany`: one customer query; the first profile's company and the rep code. */
  function FetchCompany(customerId: string, api: Api): (x: Exchange)
    ensures x.trace == [CustomerCompanyQuery(CustomerGid(customerId))]
    ensures var reply := api(CustomerCompanyQuery(CustomerGid(customerId)));
            if reply.Threw? then x.response == InternalError
            else x.response.status == 200 && x.response.body.CompanyBody? &&
                 (x.response.body.company.Some? <==>
                    reply.CustomerData? && reply.customer.Some? && reply.customer.value.profiles.Some? &&
                    |reply.customer.value.profiles.value| > 0 &&
                    reply.customer.value.profiles.value[0].company.Some?) &&
                 (x.response.body.company.Some? ==>
                    x.response.body.company == reply.customer.value.profiles.value[0].company) &&
                 (x.response.body.repCode != "" ==>
                    reply.CustomerData? && reply.customer.Some? &&
                    reply.customer.value.repCode == Some(x.response.body.repCode)) &&
                 (reply.CustomerData? && reply.customer.Some? && reply.customer.value.repCode.Some? ==>
                    x.response.body.repCode == reply.customer.value.repCode.value)
  {
    var query := CustomerCompanyQuery(CustomerGid(customerId));
    var reply := api(query);
    if reply.Threw? then Exchange(InternalError, [query])
    else Exchange(JsonResponse(200, CompanyBody(FirstCompany(reply), RepCodeOf(reply))), [query])
  }

  /** The companies in the search reply, in order, or none when the reply lacks them. */
  function CompaniesOf(reply: Reply): seq<Company> {
    if reply.CompanyNodes? && reply.companies.Some? then reply.companies.value else []
  }

  /** `fetchRepCompanies`: nothing to search for an empty rep code, otherwise one search. */
  function FetchRepCompanies(repCode: string, api: Api): (x: Exchange)
    ensures repCode == "" ==> x == Exchange(JsonResponse(200, CompaniesBody([])), [])
    ensures repCode != "" ==> x.trace == [CompanySearch(RepCodeFilter(repCode))]
    ensures repCode != "" ==>
              var reply := api(CompanySearch(RepCodeFilter(repCode)));
              if reply.Threw? then x.response == InternalError
              else x.response == JsonResponse(200, CompaniesBody(
                     if reply.CompanyNodes? && reply.companies.Some? then reply.companies.value else []))
  {
    if repCode == "" then Exchange(JsonResponse(200, CompaniesBody([])), [])
    else
      var search := CompanySearch(RepCodeFilter(repCode));
      var reply := api(search);
      if reply.Threw? then Exchange(InternalError, [search])
      else Exchange(JsonResponse(200, CompaniesBody(CompaniesOf(reply))), [search])
  }

  /** The contact profiles in the reply, or none when the reply lacks them. */
  function ProfilesOf(reply: Reply): seq<ContactProfile> {
    if reply.CustomerData? && reply.customer.Some? && reply.customer.value.profiles.Some?
    then reply.customer.value.profiles.value
    else []
  }

  /** One removal per existing contact profile, in order. */
  function Removals(profiles: seq<ContactProfile>): (calls: seq<Call>)
    ensures |calls| == |profiles|
    ensures forall i :: 0 <= i < |profiles| ==> calls[i] == ContactRemove(profiles[i].id)
  {
    seq(|profiles|, i requires 0 <= i < |profiles| => ContactRemove(profiles[i].id))
  }

  /** The answer to the assign mutation's reply: the first user error as a
      400, a thrown helper as a 500, success otherwise. */
  function AssignVerdict(reply: Reply): (response: JsonResponse)
    ensures reply.Threw? ==> response == InternalError
    ensures response.status == 400 <==>
              reply.AssignResult? && reply.userErrors.Some? && |reply.userErrors.value| > 0
    ensures response.status == 400 ==> response.body == ErrorBody(reply.userErrors.value[0].message)
    ensures !reply.Threw? && response.status != 400 ==> response == JsonResponse(200, SuccessBody)
  {
    if reply.Threw? then InternalError
    else if reply.AssignResult? && reply.userErrors.Some? && |reply.userErrors.value| > 0
    then JsonResponse(400, ErrorBody(reply.userErrors.value[0].message))
    else JsonResponse(200, SuccessBody)
  }

  /** What `assignCompany` does: fetch the profiles, remove each in order,
      assign once; the first call whose helper throws ends it with a 500. */
  function AssignOutcome(customerId: string, companyId: string, api: Api): (x: Exchange)
    ensures var fetch := CustomerProfilesQuery(CustomerGid(customerId));
            |x.trace| >= 1 && x.trace[0] == fetch &&
            (api(fetch).Threw? ==> x == Exchange(InternalError, [fetch]))
    ensures forall i :: 1 <= i < |x.trace| - 1 ==> x.trace[i].ContactRemove?
    ensures forall i :: 0 <= i < |x.trace| - 1 ==> !x.trace[i].AssignCustomerAsContact?
    ensures x.response.status in {200, 400, 500}
    ensures x.response.status == 200 <==> x.response.body == SuccessBody
    ensures x.response.status != 500 ==>
              var profiles := ProfilesOf(api(CustomerProfilesQuery(CustomerGid(customerId))));
              |x.trace| == |profiles| + 2 &&
              (forall i :: 0 <= i < |profiles| ==> x.trace[i + 1] == ContactRemove(profiles[i].id)) &&
              x.trace[|x.trace| - 1] == AssignCustomerAsContact(companyId, CustomerGid(customerId))
    ensures var fetch := CustomerProfilesQuery(CustomerGid(customerId));
            var removals := Removals(ProfilesOf(api(fetch)));
            !api(fetch).Threw? && Aborted(removals, api) ==>
              x == Exchange(InternalError, [fetch] + Sent(removals, api))
    ensures var fetch := CustomerProfilesQuery(CustomerGid(customerId));
            var removals := Removals(ProfilesOf(api(fetch)));
            var assign := AssignCustomerAsContact(companyId, CustomerGid(customerId));
            !api(fetch).Threw? && !Aborted(removals, api) ==>
              x.response == AssignVerdict(api(assign)) && x.trace == [fetch] + removals + [assign]
  {
    var fetch := CustomerProfilesQuery(CustomerGid(customerId));
    if api(fetch).Threw? then Exchange(InternalError, [fetch])
    else
      var removals := Removals(ProfilesOf(api(fetch)));
      if Aborted(removals, api) then Exchange(InternalError, [fetch] + Sent(removals, api))
      else
        var assign := AssignCustomerAsContact(companyId, CustomerGid(customerId));
        var trace := [fetch] + removals + [assign];
        assert forall i :: 0 <= i < |removals| ==> trace[i + 1] == removals[i];
        Exchange(AssignVerdict(api(assign)), trace)
  }

  /** The `assignCompany` branch: a profile fetch, a loop of awaited removals, one assign. */
  method AssignCompany(customerId: string, companyId: string, api: Api) returns (x: Exchange)
    ensures x == AssignOutcome(customerId, companyId, api)
  {
    var fetch := CustomerProfilesQuery(CustomerGid(customerId));
    var reply := api(fetch);
    if reply.Threw? {
      return Exchange(InternalError, [fetch]);
    }
    var profiles := ProfilesOf(reply);
    ghost var removals := Removals(profiles);
    var sent := [];
    var i := 0;
    while i < |profiles|
      invariant 0 <= i <= |profiles|
      invariant sent == removals[..i]
      invariant Clean(sent, api)
    {
      var removal := ContactRemove(profiles[i].id);
      assert removals[..i + 1] == sent + [removal];
      if api(removal).Threw? {
        assert removals == sent + removals[i..];
        RunAfterClean(sent, removals[i..], api);
        assert removals[i..][0] == removal;
        return Exchange(InternalError, [fetch] + (sent + [removal]));
      }
      CleanExtend(sent, removal, api);
      sent := sent + [removal];
      i := i + 1;
    }
    assert sent == removals;
    RunAfterClean(sent, [], api);
    assert sent + [] == sent;
    var assign := AssignCustomerAsContact(companyId, CustomerGid(customerId));
    return Exchange(AssignVerdict(api(assign)), [fetch] + sent + [assign]);
  }

  /** The POST action, from the decoded body (`None` when the body is not JSON). */
  method Action(body: Option<ProxyRequest>, api: Api) returns (x: Exchange)
    ensures body.None? ==> x == Exchange(InternalError, [])
    ensures body.Some? ==>
              match Validate(body.value)
              case Err(rejection) => x == Exchange(rejection, [])
              case Ok(FetchCompanyCmd(c)) => x == FetchCompany(c, api)
              case Ok(FetchRepCompaniesCmd(r)) => x == FetchRepCompanies(r, api)
              case Ok(AssignCompanyCmd(c, k)) => x == AssignOutcome(c, k, api)
    ensures x.response.status in {200, 400, 500}
    ensures x.response.status == 400 && x.trace != [] ==>
              body.Some? && body.value.actionType == Some("assignCompany")
    ensures body.Some? && body.value.actionType == Some("assignCompany") ==>
              (x.response.status == 200 <==> x.response.body == SuccessBody)
  {
    if body.None? {
      return Exchange(InternalError, []);
    }
    var checked := Validate(body.value);
    match checked {
      case Err(rejection) =>
        x := Exchange(rejection, []);
      case Ok(FetchCompanyCmd(c)) =>
        x := FetchCompany(c, api);
      case Ok(FetchRepCompaniesCmd(r)) =>
        x := FetchRepCompanies(r, api);
      case Ok(AssignCompanyCmd(c, k)) =>
        x := AssignCompany(c, k, api);
    }
  }
}
