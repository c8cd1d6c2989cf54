/** The cart-page widget: on page load it asks the proxy for the customer's
    company and for the companies sharing the rep code, offers the others in
    a selector, and on a click asks the proxy to reassign the customer. The
    page is modelled by what it shows: the container's notice or selector,
    the selector's options and the message under the button. */
module RepCompanyWidget {
  import opened JsValues
  import opened AdminApi
  import opened Proxy

  /** What `fetch("/apps/proxy", …)` settles to. */
  datatype Delivery = NetworkError | Delivered(response: JsonResponse)

  /** What the container shows. */
  datatype Screen = Untouched | Notice(text: string) | Picker(currentName: string)

  /** One `<option>`: its value and the text it shows. */
  datatype Choice = Choice(value: string, text: string)

  const Placeholder := Choice("", "-- Select Company --")

  const NotLoggedIn := "Customer not logged in."
  const NoCompany := "No company assigned to you."
  const LoadFailed := "Failed to load company info."
  const SelectPrompt := "Please select a company."
  const AlreadyAssigned := "Already assigned to this company."
  const Reassigned := "Customer reassigned successfully!"
  const AssignFailed := "Failed to assign customer."

  /** `proxyFetch`: the body of a 2xx response; anything else throws (`None`). */
  function ProxyFetch(d: Delivery): (body: Option<Body>)
    ensures body.Some? <==> d.Delivered? && 200 <= d.response.status <= 299
    ensures body.Some? ==> body.value == d.response.body
  {
    if d.Delivered? && 200 <= d.response.status <= 299 then Some(d.response.body) else None
  }

  function FetchCompanyRequest(customerId: string): ProxyRequest {
    ProxyRequest(Some("fetchCompany"), Some(customerId), None, None)
  }

  function RepCompaniesRequest(repCode: string): ProxyRequest {
    ProxyRequest(Some("fetchRepCompanies"), None, Some(repCode), None)
  }

  function AssignRequest(customerId: string, companyId: string): ProxyRequest {
    ProxyRequest(Some("assignCompany"), Some(customerId), None, Some(companyId))
  }

  /** The company a body carries, if any. */
  function CompanyIn(b: Body): Option<Company> {
    if b.CompanyBody? then b.company else None
  }

  /** The rep code a body carries, or "". */
  function RepCodeIn(b: Body): string {
    if b.CompanyBody? then b.repCode else ""
  }

  /** The companies a body carries, or none. */
  function CompaniesIn(b: Body): seq<Company> {
    if b.CompaniesBody? then b.companies else []
  }

  /** The rep companies whose id differs from the current company's, in order. */
  function OtherCompanies(companies: seq<Company>, currentId: string): (others: seq<Company>)
    ensures |others| <= |companies|
    ensures forall c :: c in others <==> c in companies && c.id != currentId
  {
    if companies == [] then []
    else (if companies[0].id != currentId then [companies[0]] else []) + OtherCompanies(companies[1..], currentId)
  }

  /** The filter keeps the order of the companies it keeps. */
  lemma {:induction false} OtherCompaniesAppend(a: seq<Company>, b: seq<Company>, currentId: string)
    ensures OtherCompanies(a + b, currentId) == OtherCompanies(a, currentId) + OtherCompanies(b, currentId)
  {
    if a == [] {
      assert a + b == b;
    } else {
      assert (a + b)[1..] == a[1..] + b;
      OtherCompaniesAppend(a[1..], b, currentId);
    }
  }

  function ChoiceOf(c: Company): Choice {
    Choice(c.id, c.name)
  }

  /** One option per company, in order. */
  function ChoicesOf(companies: seq<Company>): (choices: seq<Choice>)
    ensures |choices| == |companies|
    ensures forall c :: c in companies ==> ChoiceOf(c) in choices
  {
    var choices := seq(|companies|, i requires 0 <= i < |companies| => ChoiceOf(companies[i]));
    assert forall i :: 0 <= i < |companies| ==> choices[i] == ChoiceOf(companies[i]);
    choices
  }

  /** Appending a company appends its option. */
  lemma ChoicesOfSnoc(companies: seq<Company>, i: nat)
    requires i < |companies|
    ensures ChoicesOf(companies[..i + 1]) == ChoicesOf(companies[..i]) + [ChoiceOf(companies[i])]
  {
  }

  /** The selector's options: the placeholder, then one option per rep
      company other than the current one, in the order they came. */
  function Selectable(companies: seq<Company>, currentId: string): (choices: seq<Choice>)
    ensures |choices| >= 1 && choices[0] == Placeholder
    ensures forall i :: 1 <= i < |choices| ==> choices[i].value != currentId
    ensures forall c :: c in companies && c.id != currentId ==> ChoiceOf(c) in choices[1..]
    ensures forall i :: 1 <= i < |choices| ==>
              exists c :: c in companies && c.id != currentId && choices[i] == ChoiceOf(c)
    ensures |choices| == |OtherCompanies(companies, currentId)| + 1
    ensures forall i :: 0 <= i < |choices| - 1 ==>
              choices[i + 1] == ChoiceOf(OtherCompanies(companies, currentId)[i])
  {
    var others := OtherCompanies(companies, currentId);
    var tail := ChoicesOf(others);
    assert forall i :: 0 <= i < |tail| ==> others[i] in others;
    [Placeholder] + tail
  }

  /** Whether a click sends an assign request: a selection that is neither
      empty nor the current company. */
  predicate SendsAssign(selection: string, currentId: string) {
    selection != "" && selection != currentId
  }

  /** The message a click leaves when it sends nothing. */
  function GuardMessage(selection: string, currentId: string): (msg: string)
    requires !SendsAssign(selection, currentId)
    ensures selection == "" ==> msg == SelectPrompt
    ensures selection != "" ==> msg == AlreadyAssigned
  {
    if selection == "" then SelectPrompt else AlreadyAssigned
  }

  /** The message once the assign request settles. */
  function AssignMessage(d: Delivery): (msg: string)
    ensures ProxyFetch(d).None? ==> msg == AssignFailed
    ensures d.Delivered? && d.response.status == 400 ==> msg == AssignFailed
    ensures ProxyFetch(d) == Some(SuccessBody) ==> msg == Reassigned
    ensures ProxyFetch(d).Some? && ProxyFetch(d).value.ErrorBody? && ProxyFetch(d).value.error != "" ==>
              msg == "Error: " + ProxyFetch(d).value.error
    ensures ProxyFetch(d).Some? && ProxyFetch(d) != Some(SuccessBody) &&
            !(ProxyFetch(d).value.ErrorBody? && ProxyFetch(d).value.error != "") ==>
              msg == "Error: Unknown"
  {
    var body := ProxyFetch(d);
    if body.None? then AssignFailed
    else if body.value.SuccessBody? then Reassigned
    else "Error: " + OrElse(if body.value.ErrorBody? then Some(body.value.error) else None, "Unknown")
  }

  /** Against this proxy the widget never shows "Error: …": the assign
      action answers with a 200 success or with a 400 or 500, and the non-2xx
      answers throw in `proxyFetch`, so a rejected assignment, even one with
      a user error, reads "Failed to assign customer.". */
  lemma AssignMessageAgainstProxy(customerId: string, companyId: string, api: Api)
    ensures var answer := AssignOutcome(customerId, companyId, api).response;
            AssignMessage(Delivered(answer)) == if answer.status == 200 then Reassigned else AssignFailed
  {
  }

  /** The requests the widget sends always pass the proxy's validation. */
  lemma RequestsPassValidation(customerId: string, repCode: string, selection: string)
    requires customerId != ""
    ensures Validate(FetchCompanyRequest(customerId)) == Ok(FetchCompanyCmd(customerId))
    ensures Validate(RepCompaniesRequest(repCode)) == Ok(FetchRepCompaniesCmd(repCode))
    ensures selection != "" ==>
              Validate(AssignRequest(customerId, selection)) == Ok(AssignCompanyCmd(customerId, selection))
  {
  }

  class Widget {
    var screen: Screen
    var options: seq<Choice>
    var message: string
    /** Whether the assign button's click handler is registered. */
    var listening: bool
    /** The state the click handler captures. */
    var customerId: string
    var current: Company
    /** The proxy requests sent so far, in order. */
    ghost var calls: seq<ProxyRequest>

    /** Once the selector is shown, it starts with the placeholder and never
        offers the current company. */
    ghost predicate Valid()
      reads this
    {
      listening ==>
        screen == Picker(current.name) && customerId != "" &&
        |options| >= 1 && options[0] == Placeholder &&
        forall i :: 1 <= i < |options| ==> options[i].value != current.id
    }

    /** The page before `DOMContentLoaded`. */
    constructor ()
      ensures Valid()
      ensures screen == Untouched && options == [] && message == "" && !listening && calls == []
    {
      screen := Untouched;
      options := [];
      message := "";
      listening := false;
      customerId := "";
      current := Company("", "");
      calls := [];
    }

    /** The `DOMContentLoaded` handler. `mounted` says whether the page has the
        widget's container; `customerIdAttr` is its `data-customer-id`. */
    method Load(mounted: bool, customerIdAttr: Option<string>, proxy: ProxyRequest -> Delivery)
      requires screen == Untouched && !listening && calls == []
      modifies this
      ensures Valid()
      ensures !mounted ==> unchanged(this)
      ensures !listening ==>
                options == old(options) && message == old(message) &&
                customerId == old(customerId) && current == old(current)
      ensures mounted && !Truthy(customerIdAttr) ==>
                screen == Notice(NotLoggedIn) && !listening && calls == []
      ensures mounted && Truthy(customerIdAttr) ==>
                var first := FetchCompanyRequest(customerIdAttr.value);
                var loaded := ProxyFetch(proxy(first));
                |calls| >= 1 && calls[0] == first &&
                (loaded.None? ==> screen == Notice(LoadFailed) && !listening && calls == [first]) &&
                (loaded.Some? && CompanyIn(loaded.value).None? ==>
                   screen == Notice(NoCompany) && !listening && calls == [first]) &&
                (loaded.Some? && CompanyIn(loaded.value).Some? ==>
                   var company := CompanyIn(loaded.value).value;
                   var second := RepCompaniesRequest(RepCodeIn(loaded.value));
                   var listed := ProxyFetch(proxy(second));
                   calls == [first, second] &&
                   (listed.None? ==> screen == Notice(LoadFailed) && !listening) &&
                   (listed.Some? ==>
                      listening && screen == Picker(company.name) && message == "" &&
                      customerId == customerIdAttr.value && current == company &&
                      options == Selectable(CompaniesIn(listed.value), company.id)))
    {
      if !mounted {
        return;
      }
      if !Truthy(customerIdAttr) {
        screen := Notice(NotLoggedIn);
        return;
      }
      var id := customerIdAttr.value;
      var first := FetchCompanyRequest(id);
      calls := calls + [first];
      var loaded := ProxyFetch(proxy(first));
      if loaded.None? {
        screen := Notice(LoadFailed);
        return;
      }
      var company := CompanyIn(loaded.value);
      if company.None? {
        screen := Notice(NoCompany);
        return;
      }
      var second := RepCompaniesRequest(RepCodeIn(loaded.value));
      calls := calls + [second];
      var listed := ProxyFetch(proxy(second));
      if listed.None? {
        screen := Notice(LoadFailed);
        return;
      }
      ShowPicker(id, company.value, CompaniesIn(listed.value));
    }

    /** Renders the selector for the current company, appends one option per
        other rep company, and registers the click handler. */
    method ShowPicker(id: string, company: Company, repCompanies: seq<Company>)
      requires id != ""
      modifies this
      ensures Valid()
      ensures listening && screen == Picker(company.name) && message == "" &&
              customerId == id && current == company &&
              options == Selectable(repCompanies, company.id)
      ensures calls == old(calls)
    {
      screen := Picker(company.name);
      message := "";
      var others := OtherCompanies(repCompanies, company.id);
      options := [Placeholder];
      AppendOptions(others);
      assert options == Selectable(repCompanies, company.id);
      customerId := id;
      current := company;
      listening := true;
    }

    /** Appends one option per company to the selector, in order. */
    method AppendOptions(companies: seq<Company>)
      modifies this`options
      ensures options == old(options) + ChoicesOf(companies)
    {
      ghost var start := options;
      var i := 0;
      while i < |companies|
        invariant 0 <= i <= |companies|
        invariant options == start + ChoicesOf(companies[..i])
      {
        ChoicesOfSnoc(companies, i);
        options := options + [ChoiceOf(companies[i])];
        i := i + 1;
      }
      assert companies[..i] == companies;
    }

    /** A click on the assign button with the selector showing `selection`. */
    method Click(selection: string, proxy: ProxyRequest -> Delivery)
      requires Valid()
      modifies this`message, this`calls
      ensures Valid()
      ensures !listening ==> message == old(message) && calls == old(calls)
      ensures listening && !SendsAssign(selection, current.id) ==>
                message == GuardMessage(selection, current.id) && calls == old(calls)
      ensures listening && SendsAssign(selection, current.id) ==>
                calls == old(calls) + [AssignRequest(customerId, selection)] &&
                message == AssignMessage(proxy(AssignRequest(customerId, selection)))
    {
      if !listening {
        return;
      }
      if selection == "" {
        message := SelectPrompt;
        return;
      }
      if selection == current.id {
        message := AlreadyAssigned;
        return;
      }
      var request := AssignRequest(customerId, selection);
      calls := calls + [request];
      message := AssignMessage(proxy(request));
    }
  }
}
