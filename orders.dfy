/**
 * The order services. `services/api.ts` and `services/OrderService.ts` hold
 * the same two stateless calls and the same module-level status cache; they
 * differ only in the payload of the status update (a status name in the
 * first, a status id in the second). Each source module owns its own cache,
 * so each is one `StatusCache` object here.
 */
module Orders {

  import opened Js
  import opened Http
  import Seqs

  datatype OrderStatus = OrderStatus(id: int, name: string, createdAt: string, updatedAt: string)

  datatype OrderItem = OrderItem(id: int, menuItemId: int, quantity: int, priceAtOrder: real, menuItemName: string)

  datatype Order = Order(
    id: int,
    userId: int,
    addressId: int,
    totalPrice: real,
    status: OrderStatus,
    createdAt: string,
    updatedAt: string,
    orderItems: seq<OrderItem>)

  const ORDERS_FAILED := "Не удалось загрузить заказы"
  const STATUSES_FAILED := "Не удалось загрузить статусы"
  const STATUS_UPDATE_FAILED := "Не удалось обновить статус заказа"

  const ORDERS_REQUEST := Request(Get, "/orders", NoBody)
  const STATUSES_REQUEST := Request(Get, "/order-statuses", NoBody)

  function OrderPath(orderId: int): string
  {
    "/orders/" + IntToString(orderId)
  }

  /** `fetchOrders()`: the server's list unchanged, or a plain error with a fixed message and no response. */
  function FetchOrders(reply: Response<seq<Order>>): (r: ServiceCall<seq<Order>>)
    ensures r.request == ORDERS_REQUEST
    ensures reply.Success? ==> r.outcome == Ok(reply.data)
    ensures reply.HttpError? ==> r.outcome == Thrown(JsError(ORDERS_FAILED, None))
  {
    ServiceCall(ORDERS_REQUEST, if reply.Success? then Ok(reply.data) else Fail(ORDERS_FAILED))
  }

  /** `updateOrderStatus(orderId, status)` of api.ts: PATCH with `{status}`, a status name. */
  function UpdateOrderStatusByName(orderId: int, status: string, reply: Response<Order>): (r: ServiceCall<Order>)
    ensures r.request == Request(Patch, OrderPath(orderId), StatusNameBody(status))
    ensures reply.Success? ==> r.outcome == Ok(reply.data)
    ensures reply.HttpError? ==> r.outcome == Thrown(JsError(STATUS_UPDATE_FAILED, None))
  {
    ServiceCall(Request(Patch, OrderPath(orderId), StatusNameBody(status)),
      if reply.Success? then Ok(reply.data) else Fail(STATUS_UPDATE_FAILED))
  }

  /** `updateOrderStatus(orderId, statusId)` of OrderService.ts: PATCH with `{statusId}`, a numeric id. */
  function UpdateOrderStatusById(orderId: int, statusId: int, reply: Response<Order>): (r: ServiceCall<Order>)
    ensures r.request == Request(Patch, OrderPath(orderId), StatusIdBody(statusId))
    ensures reply.Success? ==> r.outcome == Ok(reply.data)
    ensures reply.HttpError? ==> r.outcome == Thrown(JsError(STATUS_UPDATE_FAILED, None))
  {
    ServiceCall(Request(Patch, OrderPath(orderId), StatusIdBody(statusId)),
      if reply.Success? then Ok(reply.data) else Fail(STATUS_UPDATE_FAILED))
  }

  /** The two update variants address the same resource but are not interchangeable: their payloads never coincide. */
  lemma UpdateVariantsDiffer(orderId: int, name: string, statusId: int, r1: Response<Order>, r2: Response<Order>)
    ensures UpdateOrderStatusByName(orderId, name, r1).request.path == UpdateOrderStatusById(orderId, statusId, r2).request.path
    ensures UpdateOrderStatusByName(orderId, name, r1).request.body != UpdateOrderStatusById(orderId, statusId, r2).request.body
  {
  }

  // ---------------------------------------------------------------------
  // The status cache: a write-once memo of `fetchOrderStatuses()`.
  // `None` is `cachedStatuses === null`; any array, even an empty one, is
  // truthy, so `Some([])` counts as populated.
  // ---------------------------------------------------------------------

  /** What one `fetchOrderStatuses()` call does: the cache afterwards, the request it sent (if any) and how it settled. */
  datatype StatusFetch = StatusFetch(
    cache: Option<seq<OrderStatus>>,
    request: Option<Request>,
    outcome: Outcome<seq<OrderStatus>>)

  /**
   * One call on a given cache: a populated cache is returned as it is with no
   * request; an empty one sends the request, and only a successful reply
   * fills it.
   */
  function FetchStatuses(cache: Option<seq<OrderStatus>>, reply: Response<seq<OrderStatus>>): (r: StatusFetch)
    ensures cache.Some? ==> r == StatusFetch(cache, None, Ok(cache.value))
    ensures cache.None? ==> r.request == Some(STATUSES_REQUEST)
    ensures cache.None? && reply.Success? ==> r.cache == Some(reply.data) && r.outcome == Ok(reply.data)
    ensures cache.None? && reply.HttpError? ==> r.cache == None && r.outcome == Fail(STATUSES_FAILED)
  {
    if cache.Some? then StatusFetch(cache, None, Ok(cache.value))
    else match reply
      case Success(data) => StatusFetch(Some(data), Some(STATUSES_REQUEST), Ok(data))
      case HttpError(_, _) => StatusFetch(None, Some(STATUSES_REQUEST), Fail(STATUSES_FAILED))
  }

  /** Several sequential calls: the final cache, every request sent, and each call's outcome. */
  datatype FetchRun = FetchRun(
    cache: Option<seq<OrderStatus>>,
    requests: seq<Request>,
    outcomes: seq<Outcome<seq<OrderStatus>>>)

  function RequestsOf(r: Option<Request>): seq<Request>
  {
    if r.Some? then [r.value] else []
  }

  /** `replies[i]` is what the backend would answer call `i` if that call asked. */
  function FetchSequence(cache: Option<seq<OrderStatus>>, replies: seq<Response<seq<OrderStatus>>>): (r: FetchRun)
    ensures |r.outcomes| == |replies|
    decreases |replies|
  {
    if replies == [] then FetchRun(cache, [], [])
    else
      var step := FetchStatuses(cache, replies[0]);
      var rest := FetchSequence(step.cache, replies[1..]);
      FetchRun(rest.cache, RequestsOf(step.request) + rest.requests, [step.outcome] + rest.outcomes)
  }

  /** Once populated, the cache answers every later call itself, with no request, and is never cleared or overwritten. */
  lemma {:induction false} PopulatedCacheAnswersAlone(statuses: seq<OrderStatus>, replies: seq<Response<seq<OrderStatus>>>)
    ensures FetchSequence(Some(statuses), replies).cache == Some(statuses)
    ensures FetchSequence(Some(statuses), replies).requests == []
    ensures forall i :: 0 <= i < |replies| ==> FetchSequence(Some(statuses), replies).outcomes[i] == Ok(statuses)
  {
    if replies != [] {
      PopulatedCacheAnswersAlone(statuses, replies[1..]);
    }
  }

  /** From an empty cache, a first call that succeeds is the only request of the run; every call returns what it fetched. */
  lemma FirstSuccessIsTheOnlyRequest(replies: seq<Response<seq<OrderStatus>>>)
    requires |replies| > 0 && replies[0].Success?
    ensures FetchSequence(None, replies).requests == [STATUSES_REQUEST]
    ensures FetchSequence(None, replies).cache == Some(replies[0].data)
    ensures forall i :: 0 <= i < |replies| ==> FetchSequence(None, replies).outcomes[i] == Ok(replies[0].data)
  {
    PopulatedCacheAnswersAlone(replies[0].data, replies[1..]);
  }

  /**
   * A failed fetch leaves the cache empty, so the next call asks again: from
   * an empty cache the run sends one request per call up to and including
   * the first success, and none after it.
   */
  lemma {:induction false} RequestsUntilFirstSuccess(replies: seq<Response<seq<OrderStatus>>>)
    ensures var run := FetchSequence(None, replies);
      match Seqs.FindIndex(replies, (r: Response<seq<OrderStatus>>) => r.Success?)
      case None => run.cache == None && |run.requests| == |replies|
                   && forall i :: 0 <= i < |replies| ==> run.outcomes[i] == Fail(STATUSES_FAILED)
      case Some(k) => run.cache == Some(replies[k].data) && |run.requests| == k + 1
  {
    var p := (r: Response<seq<OrderStatus>>) => r.Success?;
    if replies != [] {
      if replies[0].Success? {
        FirstSuccessIsTheOnlyRequest(replies);
      } else {
        RequestsUntilFirstSuccess(replies[1..]);
        var run := FetchSequence(None, replies);
        var rest := FetchSequence(None, replies[1..]);
        assert run.outcomes == [Fail(STATUSES_FAILED)] + rest.outcomes;
        match Seqs.FindIndex(replies[1..], p)
        case None =>
          assert Seqs.FindIndex(replies, p) == None;
        case Some(k) =>
          assert Seqs.FindIndex(replies, p) == Some(k + 1);
      }
    }
  }

  /** An empty status list is still a populated cache: the next call makes no request. */
  lemma EmptyListIsCached(reply: Response<seq<OrderStatus>>)
    ensures FetchStatuses(None, Success([])).cache == Some([])
    ensures FetchStatuses(Some([]), reply) == StatusFetch(Some([]), None, Ok([]))
  {
  }

  /** The module-level `cachedStatuses` variable, with the call that reads and fills it. */
  class StatusCache {
    var cachedStatuses: Option<seq<OrderStatus>>

    constructor ()
      ensures cachedStatuses == None
    {
      cachedStatuses := None;
    }

    /** `fetchOrderStatuses()`; `reply` is what the backend answers if the call asks it. */
    method FetchOrderStatuses(reply: Response<seq<OrderStatus>>) returns (request: Option<Request>, outcome: Outcome<seq<OrderStatus>>)
      modifies this
      ensures StatusFetch(cachedStatuses, request, outcome) == FetchStatuses(old(cachedStatuses), reply)
      ensures old(cachedStatuses).Some? ==> cachedStatuses == old(cachedStatuses)
    {
      if cachedStatuses.Some? {
        return None, Ok(cachedStatuses.value);
      }
      request := Some(STATUSES_REQUEST);
      match reply
      case Success(data) =>
        cachedStatuses := Some(data);
        outcome := Ok(data);
      case HttpError(_, _) =>
        outcome := Fail(STATUSES_FAILED);
    }
  }
}
