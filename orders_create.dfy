/** The `orders/create` webhook: resolves the shop and the order id, reads the
    order's `fulfillment_mode` note attribute, maps it to one of two fixed
    locations, fetches the order's fulfillment orders and moves every one
    that is not already at that location. */
module OrdersCreateWebhook {
  import opened JsValues
  import opened AdminApi

  datatype NoteAttribute = NoteAttribute(name: string, value: string)

  /** The payload's `id`, which may come as a number or as a string. */
  datatype NumberOrString = Num(n: int) | Str(s: string)

  /** The decoded order payload. */
  datatype OrderPayload = OrderPayload(
    id: Option<NumberOrString>,
    adminGraphqlApiId: Option<string>,
    shopDomain: Option<string>,
    noteAttributes: Option<seq<NoteAttribute>>)

  /** How the payload reached the handler: trusted from the request body, or
      checked by the platform SDK, which also reports the shop it verified. */
  datatype Origin = Development | Production(verifiedShop: Option<string>)

  datatype TextResponse = TextResponse(status: int, text: string)

  /** A handler's answer together with the GraphQL calls it issued, in order. */
  datatype Handled = Handled(response: TextResponse, trace: seq<Call>)

  const ModeAttribute := "fulfillment_mode"
  const BookingLocation := "gid://shopify/Location/77507559507"
  const ImmediateLocation := "gid://shopify/Location/77507592275"

  const NoShop := TextResponse(400, "No shop")
  const NoOrderId := TextResponse(200, "No order id")
  const NoMode := TextResponse(200, "No fulfillment mode")
  const InvalidMode := TextResponse(200, "Invalid mode")
  const Done := TextResponse(200, "OK")
  const ServerError := TextResponse(500, "Error")

  /** The shop the calls go to: the `x-shopify-shop-domain` header when it is
      present at all, otherwise the payload's `shop_domain` (trusted delivery)
      or the shop the SDK verified; `None` when that value is absent or "". */
  function ResolveShop(header: Option<string>, origin: Origin, order: OrderPayload): (shop: Option<string>)
    ensures shop.Some? ==> shop.value != ""
    ensures header.Some? ==> shop == (if header.value != "" then header else None)
    ensures header.None? && origin.Development? ==>
              shop == (if Truthy(order.shopDomain) then order.shopDomain else None)
    ensures header.None? && origin.Production? ==>
              shop == (if Truthy(origin.verifiedShop) then origin.verifiedShop else None)
  {
    var fallback := if origin.Development? then order.shopDomain else origin.verifiedShop;
    var candidate := Coalesce(header, fallback);
    if Truthy(candidate) then candidate else None
  }

  /** The order id: the admin GraphQL id when the payload has one at all,
      otherwise the numeric or textual `id` as text; `None` when that is absent or "". */
  function OrderId(order: OrderPayload): (orderId: Option<string>)
    ensures orderId.Some? ==> orderId.value != ""
    ensures order.adminGraphqlApiId.Some? ==>
              orderId == (if order.adminGraphqlApiId.value != "" then order.adminGraphqlApiId else None)
    ensures order.adminGraphqlApiId.None? && order.id.None? ==> orderId.None?
    ensures order.adminGraphqlApiId.None? && order.id.Some? && order.id.value.Num? ==>
              orderId == Some(IntToString(order.id.value.n))
    ensures order.adminGraphqlApiId.None? && order.id.Some? && order.id.value.Str? ==>
              orderId == (if order.id.value.s != "" then Some(order.id.value.s) else None)
  {
    var text := match order.id
      case None => None
      case Some(Num(n)) => Some(IntToString(n))
      case Some(Str(s)) => Some(s);
    var candidate := Coalesce(order.adminGraphqlApiId, text);
    if Truthy(candidate) then candidate else None
  }

  /** The index of the first attribute called `name`, or the length when none is. */
  function FindAttribute(attributes: seq<NoteAttribute>, name: string): (k: nat)
    ensures k <= |attributes|
    ensures forall j :: 0 <= j < k ==> attributes[j].name != name
    ensures k < |attributes| ==> attributes[k].name == name
  {
    if attributes == [] then 0
    else if attributes[0].name == name then 0
    else 1 + FindAttribute(attributes[1..], name)
  }

  /** The value of the first `fulfillment_mode` note attribute, kept only when truthy. */
  function FulfillmentMode(attributes: Option<seq<NoteAttribute>>): (mode: Option<string>)
    ensures mode.Some? <==>
              attributes.Some? &&
              exists k :: 0 <= k < |attributes.value| && attributes.value[k].name == ModeAttribute &&
                          attributes.value[k].value != "" &&
                          forall j :: 0 <= j < k ==> attributes.value[j].name != ModeAttribute
    ensures mode.Some? ==>
              exists k :: 0 <= k < |attributes.value| && attributes.value[k].name == ModeAttribute &&
                          attributes.value[k].value == mode.value &&
                          forall j :: 0 <= j < k ==> attributes.value[j].name != ModeAttribute
  {
    if attributes.None? then None
    else
      var k := FindAttribute(attributes.value, ModeAttribute);
      if k < |attributes.value| && attributes.value[k].value != "" then Some(attributes.value[k].value)
      else None
  }

  /** The location a mode routes to: exactly two modes are recognised. */
  function TargetLocation(mode: string): (location: Option<string>)
    ensures location.Some? <==> mode == "booking" || mode == "immediate"
    ensures mode == "booking" ==> location == Some(BookingLocation)
    ensures mode == "immediate" ==> location == Some(ImmediateLocation)
  {
    if mode == "booking" then Some(BookingLocation)
    else if mode == "immediate" then Some(ImmediateLocation)
    else None
  }

  /** The fulfillment orders in the query's reply, or none when the reply lacks them. */
  function FulfillmentOrdersOf(reply: Reply): seq<FulfillmentOrder> {
    if reply.FulfillmentOrderNodes? && reply.fulfillmentOrders.Some? then reply.fulfillmentOrders.value else []
  }

  predicate AtTarget(fo: FulfillmentOrder, target: string) {
    fo.location == Some(target)
  }

  /** The moves the loop over the fulfillment orders issues when none of them throws. */
  function MovePlan(fos: seq<FulfillmentOrder>, target: string): (plan: seq<Call>)
    ensures |plan| <= |fos|
    ensures forall c :: c in plan ==> c.FulfillmentOrderMove? && c.locationId == target
  {
    if fos == [] then []
    else
      (if AtTarget(fos[0], target) then [] else [FulfillmentOrderMove(fos[0].id, target)])
      + MovePlan(fos[1..], target)
  }

  /** The plan of a concatenation is the concatenation of the plans: the
      moves go out in input order, one group per fulfillment order. */
  lemma {:induction false} MovePlanAppend(a: seq<FulfillmentOrder>, b: seq<FulfillmentOrder>, target: string)
    ensures MovePlan(a + b, target) == MovePlan(a, target) + MovePlan(b, target)
  {
    if a == [] {
      assert a + b == b;
    } else {
      assert (a + b)[1..] == a[1..] + b;
      MovePlanAppend(a[1..], b, target);
    }
  }

  /** A single fulfillment order is moved exactly when it is not at the target. */
  lemma MovePlanSingle(fo: FulfillmentOrder, target: string)
    ensures MovePlan([fo], target)
         == if AtTarget(fo, target) then [] else [FulfillmentOrderMove(fo.id, target)]
  {
    assert [fo][1..] == [];
  }

  /** Every fulfillment order away from the target, including one with no
      assigned location, gets a move; every move names such an order. */
  lemma {:induction false} MovePlanMembers(fos: seq<FulfillmentOrder>, target: string)
    ensures forall i :: 0 <= i < |fos| && !AtTarget(fos[i], target) ==>
              FulfillmentOrderMove(fos[i].id, target) in MovePlan(fos, target)
    ensures forall c :: c in MovePlan(fos, target) ==>
              exists i :: 0 <= i < |fos| && !AtTarget(fos[i], target) && c == FulfillmentOrderMove(fos[i].id, target)
  {
    if fos != [] {
      MovePlanMembers(fos[1..], target);
      forall c | c in MovePlan(fos, target)
        ensures exists i :: 0 <= i < |fos| && !AtTarget(fos[i], target) && c == FulfillmentOrderMove(fos[i].id, target)
      {
        if !AtTarget(fos[0], target) && c == FulfillmentOrderMove(fos[0].id, target) {
        } else {
          assert c in MovePlan(fos[1..], target);
          var i :| 0 <= i < |fos[1..]| && !AtTarget(fos[1..][i], target) && c == FulfillmentOrderMove(fos[1..][i].id, target);
          assert fos[i + 1] == fos[1..][i];
        }
      }
      forall i | 0 <= i < |fos| && !AtTarget(fos[i], target)
        ensures FulfillmentOrderMove(fos[i].id, target) in MovePlan(fos, target)
      {
        if i > 0 {
          assert fos[1..][i - 1] == fos[i];
        }
      }
    }
  }

  /** With distinct ids, an order already at the target is never moved. */
  lemma AtTargetNeverMoved(fos: seq<FulfillmentOrder>, target: string, i: nat)
    requires i < |fos| && AtTarget(fos[i], target)
    requires forall j, k :: 0 <= j < k < |fos| ==> fos[j].id != fos[k].id
    ensures forall c :: c in MovePlan(fos, target) ==> c.id != fos[i].id
  {
    MovePlanMembers(fos, target);
  }

  /** Nothing is planned exactly when every order is already at the target. */
  lemma {:induction false} MovePlanEmpty(fos: seq<FulfillmentOrder>, target: string)
    ensures MovePlan(fos, target) == [] <==> forall i :: 0 <= i < |fos| ==> AtTarget(fos[i], target)
  {
    MovePlanMembers(fos, target);
    if MovePlan(fos, target) != [] {
      assert MovePlan(fos, target)[0] in MovePlan(fos, target);
    }
  }

  /** The ids a sequence of calls moves. */
  function MovedIds(calls: seq<Call>): set<string> {
    set c | c in calls && c.FulfillmentOrderMove? :: c.id
  }

  /** The platform carrying out one move: every order with that id is now at
      the move's location. Other calls leave the orders as they are. */
  function ApplyMove(fos: seq<FulfillmentOrder>, call: Call): (after: seq<FulfillmentOrder>)
    ensures |after| == |fos|
  {
    if !call.FulfillmentOrderMove? then fos
    else seq(|fos|, i requires 0 <= i < |fos| =>
               if fos[i].id == call.id then fos[i].(location := Some(call.locationId)) else fos[i])
  }

  /** The platform carrying out a sequence of calls, in order. */
  function ApplyMoves(fos: seq<FulfillmentOrder>, calls: seq<Call>): (after: seq<FulfillmentOrder>)
    ensures |after| == |fos|
    decreases |calls|
  {
    if calls == [] then fos else ApplyMoves(ApplyMove(fos, calls[0]), calls[1..])
  }

  /** After moves that all go to `target`, an order is at the target when it
      was moved and is where it was otherwise. */
  lemma {:induction false} ApplyMovesPointwise(fos: seq<FulfillmentOrder>, calls: seq<Call>, target: string)
    requires forall c :: c in calls ==> c.FulfillmentOrderMove? && c.locationId == target
    ensures forall i :: 0 <= i < |fos| ==>
              ApplyMoves(fos, calls)[i].id == fos[i].id &&
              ApplyMoves(fos, calls)[i].location == if fos[i].id in MovedIds(calls) then Some(target) else fos[i].location
    decreases |calls|
  {
    if calls != [] {
      var next := ApplyMove(fos, calls[0]);
      assert calls[0] in calls;
      forall c | c in calls[1..] ensures c.FulfillmentOrderMove? && c.locationId == target {
        assert c in calls;
      }
      ApplyMovesPointwise(next, calls[1..], target);
      assert MovedIds(calls) == {calls[0].id} + MovedIds(calls[1..]) by {
        assert calls == [calls[0]] + calls[1..];
        forall x | x in MovedIds(calls) ensures x in {calls[0].id} + MovedIds(calls[1..]) {
          var c :| c in calls && c.FulfillmentOrderMove? && c.id == x;
          if c != calls[0] {
            assert c in calls[1..];
          }
        }
      }
    }
  }

  /** Redelivery after partial success: once some moves to the target have
      been carried out, recomputing the plan never moves those orders again. */
  lemma RedeliveryNeverRepeats(fos: seq<FulfillmentOrder>, done: seq<Call>, target: string)
    requires forall c :: c in done ==> c.FulfillmentOrderMove? && c.locationId == target
    ensures forall c :: c in MovePlan(ApplyMoves(fos, done), target) ==> c.id !in MovedIds(done)
  {
    var after := ApplyMoves(fos, done);
    ApplyMovesPointwise(fos, done, target);
    MovePlanMembers(after, target);
  }

  /** Idempotence: once every planned move is carried out, the plan is empty. */
  lemma MovePlanIdempotent(fos: seq<FulfillmentOrder>, target: string)
    ensures MovePlan(ApplyMoves(fos, MovePlan(fos, target)), target) == []
  {
    var plan := MovePlan(fos, target);
    var after := ApplyMoves(fos, plan);
    ApplyMovesPointwise(fos, plan, target);
    MovePlanMembers(fos, target);
    forall i | 0 <= i < |after| ensures AtTarget(after[i], target) {
      if !AtTarget(fos[i], target) {
        assert FulfillmentOrderMove(fos[i].id, target) in plan;
        assert fos[i].id in MovedIds(plan);
      }
    }
    MovePlanEmpty(after, target);
  }

  /** One step of the loop: the order at position `i` contributes its own
      move, if any, at the front of the plan still to come. */
  lemma MovePlanStep(fos: seq<FulfillmentOrder>, i: nat, target: string)
    requires i < |fos|
    ensures AtTarget(fos[i], target) ==> MovePlan(fos[i..], target) == MovePlan(fos[i + 1..], target)
    ensures !AtTarget(fos[i], target) ==>
              MovePlan(fos[i..], target) == [FulfillmentOrderMove(fos[i].id, target)] + MovePlan(fos[i + 1..], target)
  {
    assert fos[i..][1..] == fos[i + 1..];
    assert [] + MovePlan(fos[i + 1..], target) == MovePlan(fos[i + 1..], target);
  }

  /** The loop over the fulfillment orders: one awaited move per order not at
      the target, skipping the others; a move whose helper throws ends it. */
  method MoveAll(fos: seq<FulfillmentOrder>, target: string, api: Api)
    returns (moves: seq<Call>, aborted: bool)
    ensures moves == Sent(MovePlan(fos, target), api)
    ensures aborted == Aborted(MovePlan(fos, target), api)
  {
    ghost var plan := MovePlan(fos, target);
    moves := [];
    var i := 0;
    assert fos[i..] == fos;
    while i < |fos|
      invariant 0 <= i <= |fos|
      invariant plan == moves + MovePlan(fos[i..], target)
      invariant Clean(moves, api)
    {
      ghost var rest := MovePlan(fos[i + 1..], target);
      MovePlanStep(fos, i, target);
      if !AtTarget(fos[i], target) {
        var move := FulfillmentOrderMove(fos[i].id, target);
        assert plan == moves + ([move] + rest);
        if api(move).Threw? {
          StopAt(moves, move, rest, api);
          return moves + [move], true;
        }
        Proceed(moves, move, rest, api);
        moves := moves + [move];
      }
      i := i + 1;
    }
    RunAfterClean(moves, [], api);
    assert moves + [] == moves;
    return moves, false;
  }

  /** The `orders/create` handler, once the payload is decoded. */
  method OrdersCreate(header: Option<string>, origin: Origin, order: OrderPayload, api: Api)
    returns (h: Handled)
    ensures ResolveShop(header, origin, order).None? ==> h == Handled(NoShop, [])
    ensures ResolveShop(header, origin, order).Some? && OrderId(order).None? ==>
              h == Handled(NoOrderId, [])
    ensures ResolveShop(header, origin, order).Some? && OrderId(order).Some? &&
            FulfillmentMode(order.noteAttributes).None? ==>
              h == Handled(NoMode, [])
    ensures ResolveShop(header, origin, order).Some? && OrderId(order).Some? &&
            FulfillmentMode(order.noteAttributes).Some? &&
            TargetLocation(FulfillmentMode(order.noteAttributes).value).None? ==>
              h == Handled(InvalidMode, [])
    ensures ResolveShop(header, origin, order).Some? && OrderId(order).Some? &&
            FulfillmentMode(order.noteAttributes).Some? &&
            TargetLocation(FulfillmentMode(order.noteAttributes).value).Some? ==>
              var query := FulfillmentOrdersQuery(OrderId(order).value);
              var target := TargetLocation(FulfillmentMode(order.noteAttributes).value).value;
              var plan := MovePlan(FulfillmentOrdersOf(api(query)), target);
              if api(query).Threw? then h == Handled(ServerError, [query])
              else h.trace == [query] + Sent(plan, api) &&
                   h.response == (if Aborted(plan, api) then ServerError else Done)
  {
    var shop := ResolveShop(header, origin, order);
    if shop.None? {
      return Handled(NoShop, []);
    }
    var orderId := OrderId(order);
    if orderId.None? {
      return Handled(NoOrderId, []);
    }
    var mode := FulfillmentMode(order.noteAttributes);
    if mode.None? {
      return Handled(NoMode, []);
    }
    var location := TargetLocation(mode.value);
    if location.None? {
      return Handled(InvalidMode, []);
    }
    var target := location.value;
    var query := FulfillmentOrdersQuery(orderId.value);
    var trace := [query];
    var reply := api(query);
    if reply.Threw? {
      return Handled(ServerError, trace);
    }
    var moves, aborted := MoveAll(FulfillmentOrdersOf(reply), target, api);
    return Handled(if aborted then ServerError else Done, trace + moves);
  }
}
