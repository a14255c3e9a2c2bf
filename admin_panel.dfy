/**
 * The courier admin screen of `screens/CourierAdminPanel/index.tsx`. It
 * loads all orders and the status list together, lets the courier pick a
 * new status for an order, and offers a retry after a failed load. It uses
 * the services of `services/api.ts`: the status is sent by name, and the
 * status list goes through that module's cache.
 */
module AdminPanel {

  import opened Js
  import opened Http
  import opened Orders
  import Auth
  import Seqs

  const ENDPOINT_NOT_FOUND := "Эндпоинт заказов не найден!"
  const LOAD_FAILED_PREFIX := "Не удалось загрузить данные: "
  const UPDATE_FAILED_PREFIX := "Не удалось обновить статус: "
  const LOGIN_SCREEN := "Login"

  /** The text the load's catch shows: a 404 response has its own text, anything else quotes the error's message. */
  function LoadErrorMessage(e: JsError): (r: string)
    ensures e.responseStatus == Some(404) <==> r == ENDPOINT_NOT_FOUND
    ensures e.responseStatus != Some(404) ==>
              |r| > |LOAD_FAILED_PREFIX| && r[..|LOAD_FAILED_PREFIX|] == LOAD_FAILED_PREFIX && r[|r| - 1] == '.'
  {
    if e.responseStatus == Some(404) then ENDPOINT_NOT_FOUND else LOAD_FAILED_PREFIX + e.message + "."
  }

  /**
   * The text the status change's catch shows: the fixed prefix, the error's
   * message and a full stop.
   */
  function UpdateErrorMessage(e: JsError): (r: string)
    ensures |r| == |UPDATE_FAILED_PREFIX| + |e.message| + 1
    ensures r[..|UPDATE_FAILED_PREFIX|] == UPDATE_FAILED_PREFIX && r[|UPDATE_FAILED_PREFIX|..|r| - 1] == e.message && r[|r| - 1] == '.'
  {
    UPDATE_FAILED_PREFIX + e.message + "."
  }

  /** A failed status change never shows a text the load can show: the two prefixes differ, and neither is the 404 text. */
  lemma UpdateTextIsNotLoadText(e: JsError, loadError: JsError)
    ensures UpdateErrorMessage(e) != LoadErrorMessage(loadError)
  {
    var u := UpdateErrorMessage(e);
    var l := LoadErrorMessage(loadError);
    if loadError.responseStatus == Some(404) {
      assert u[0] != l[0];
    } else {
      assert u[11] != l[11];
    }
  }

  /**
   * `orders.map(order => order.id === orderId ? updatedOrder : order)`: every
   * order with that id becomes the server's updated order, the rest stay in place.
   */
  function ReplaceById(orders: seq<Order>, orderId: int, updated: Order): (r: seq<Order>)
    ensures |r| == |orders|
    ensures forall i :: 0 <= i < |orders| ==> r[i] == (if orders[i].id == orderId then updated else orders[i])
  {
    Seqs.Map(orders, (o: Order) => if o.id == orderId then updated else o)
  }

  /** What one load leaves behind: requests sent, the status cache, the lists (when both arrived), and the error text. */
  datatype PanelLoad = PanelLoad(
    requests: seq<Request>,
    cache: Option<seq<OrderStatus>>,
    lists: Option<(seq<Order>, seq<OrderStatus>)>,
    error: Option<string>)

  /**
   * `loadData()`: both fetches are started together and awaited with
   * `Promise.all`; the lists are stored only when both succeed, and the
   * first rejection (taken to be the orders', when both fail) is reported.
   * The status fetch runs even when the orders fail, so it may fill the cache.
   */
  function Load(cache: Option<seq<OrderStatus>>, ordersReply: Response<seq<Order>>,
                statusesReply: Response<seq<OrderStatus>>): (r: PanelLoad)
    ensures |r.requests| >= 1 && r.requests[0] == ORDERS_REQUEST
    ensures |r.requests| == 2 <==> cache.None?
    ensures r.requests == [ORDERS_REQUEST] + (if cache.None? then [STATUSES_REQUEST] else [])
    ensures r.cache == FetchStatuses(cache, statusesReply).cache
    ensures r.lists.Some? <==> ordersReply.Success? && (cache.Some? || statusesReply.Success?)
    ensures r.lists.Some? ==> r.error == None && r.lists.value.0 == ordersReply.data
                              && r.lists.value.1 == (if cache.Some? then cache.value else statusesReply.data)
    ensures ordersReply.HttpError? ==> r.error == Some(LOAD_FAILED_PREFIX + ORDERS_FAILED + ".")
    ensures ordersReply.Success? && r.lists.None? ==> r.error == Some(LOAD_FAILED_PREFIX + STATUSES_FAILED + ".")
  {
    var ordersCall := FetchOrders(ordersReply);
    var statusFetch := FetchStatuses(cache, statusesReply);
    var requests := [ordersCall.request] + RequestsOf(statusFetch.request);
    match (ordersCall.outcome, statusFetch.outcome)
    case (Thrown(e), _) => PanelLoad(requests, statusFetch.cache, None, Some(LoadErrorMessage(e)))
    case (Ok(_), Thrown(e)) => PanelLoad(requests, statusFetch.cache, None, Some(LoadErrorMessage(e)))
    case (Ok(orders), Ok(statuses)) => PanelLoad(requests, statusFetch.cache, Some((orders, statuses)), None)
  }

  /**
   * The services reject with plain errors that carry no response, so the
   * 404 text can never appear: a load error always quotes the service's message.
   */
  lemma LoadNeverReportsMissingEndpoint(cache: Option<seq<OrderStatus>>, ordersReply: Response<seq<Order>>,
                                        statusesReply: Response<seq<OrderStatus>>)
    ensures Load(cache, ordersReply, statusesReply).error != Some(ENDPOINT_NOT_FOUND)
  {
    var r := Load(cache, ordersReply, statusesReply);
    if r.error.Some? {
      assert r.error.value[0] != ENDPOINT_NOT_FOUND[0];
    }
  }

  /** Once the status list is cached, a reload asks only for the orders and its outcome ignores the status reply. */
  lemma ReloadWithCachedStatuses(statuses: seq<OrderStatus>, ordersReply: Response<seq<Order>>,
                                 s1: Response<seq<OrderStatus>>, s2: Response<seq<OrderStatus>>)
    ensures Load(Some(statuses), ordersReply, s1).requests == [ORDERS_REQUEST]
    ensures Load(Some(statuses), ordersReply, s1) == Load(Some(statuses), ordersReply, s2)
  {
  }

  /** A failed orders fetch still fills an empty cache when the status fetch succeeds, so a retry sends one request. */
  lemma FailedLoadCanFillCache(ordersStatus: Option<int>, ordersMessage: Option<string>, statuses: seq<OrderStatus>,
                               retryOrders: Response<seq<Order>>, retryStatuses: Response<seq<OrderStatus>>)
    ensures var first := Load(None, HttpError(ordersStatus, ordersMessage), Success(statuses));
      first.lists.None? && first.cache == Some(statuses)
      && Load(first.cache, retryOrders, retryStatuses).requests == [ORDERS_REQUEST]
  {
  }

  /** Replacing an id no order has changes nothing. */
  lemma ReplaceAbsentIdIsIdentity(orders: seq<Order>, orderId: int, updated: Order)
    requires forall i :: 0 <= i < |orders| ==> orders[i].id != orderId
    ensures ReplaceById(orders, orderId, updated) == orders
  {
  }

  /** Applying the same update twice is the same as once, when the server keeps the order's id. */
  lemma ReplaceByIdIdempotent(orders: seq<Order>, orderId: int, updated: Order)
    requires updated.id == orderId
    ensures ReplaceById(ReplaceById(orders, orderId, updated), orderId, updated) == ReplaceById(orders, orderId, updated)
  {
    var once := ReplaceById(orders, orderId, updated);
    var twice := ReplaceById(once, orderId, updated);
    assert forall i :: 0 <= i < |twice| ==> twice[i] == once[i];
  }

  /** The screen's state. */
  class Panel {
    var orders: seq<Order>
    var statuses: seq<OrderStatus>
    var loading: bool
    var error: Option<string>

    constructor ()
      ensures orders == [] && statuses == [] && loading && error == None
    {
      orders, statuses, loading, error := [], [], true, None;
    }

    /** `loadData()` against the cache of `services/api.ts`; loading ends on every path. */
    method LoadData(cache: StatusCache, ordersReply: Response<seq<Order>>, statusesReply: Response<seq<OrderStatus>>)
      returns (requests: seq<Request>)
      modifies this, cache
      ensures var l := Load(old(cache.cachedStatuses), ordersReply, statusesReply);
        && requests == l.requests
        && cache.cachedStatuses == l.cache
        && (l.lists.Some? ==> orders == l.lists.value.0 && statuses == l.lists.value.1 && error == old(error))
        && (l.lists.None? ==> orders == old(orders) && statuses == old(statuses) && error == l.error)
      ensures !loading
    {
      var ordersCall := FetchOrders(ordersReply);
      var statusRequest, statusOutcome := cache.FetchOrderStatuses(statusesReply);
      requests := [ordersCall.request] + RequestsOf(statusRequest);
      match (ordersCall.outcome, statusOutcome) {
        case (Thrown(e), _) =>
          error := Some(LoadErrorMessage(e));
        case (Ok(_), Thrown(e)) =>
          error := Some(LoadErrorMessage(e));
        case (Ok(o), Ok(s)) =>
          orders := o;
          statuses := s;
      }
      loading := false;
    }

    /**
     * The mount effect: anyone but a courier admin is sent to Login with nothing
     * loaded (the spinner stays). The session store provides no `isCourierAdmin`,
     * so the code as written throws here; this is the guard it evidently intends.
     */
    method Mount(isCourierAdmin: bool, cache: StatusCache, ordersReply: Response<seq<Order>>,
                 statusesReply: Response<seq<OrderStatus>>)
      returns (navigateTo: Option<string>, requests: seq<Request>)
      modifies this, cache
      ensures !isCourierAdmin ==> navigateTo == Some(LOGIN_SCREEN) && requests == []
                                  && unchanged(this) && unchanged(cache)
      ensures isCourierAdmin ==> navigateTo == None
      ensures isCourierAdmin ==> var l := Load(old(cache.cachedStatuses), ordersReply, statusesReply);
        && requests == l.requests
        && cache.cachedStatuses == l.cache
        && (l.lists.Some? ==> orders == l.lists.value.0 && statuses == l.lists.value.1 && error == old(error))
        && (l.lists.None? ==> orders == old(orders) && statuses == old(statuses) && error == l.error)
        && !loading
    {
      if !isCourierAdmin {
        return Some(LOGIN_SCREEN), [];
      }
      navigateTo := None;
      requests := LoadData(cache, ordersReply, statusesReply);
    }

    /** `retryLoad()`: clears the error, shows the spinner, and loads again; a successful retry leaves no error. */
    method RetryLoad(cache: StatusCache, ordersReply: Response<seq<Order>>, statusesReply: Response<seq<OrderStatus>>)
      returns (requests: seq<Request>)
      modifies this, cache
      ensures var l := Load(old(cache.cachedStatuses), ordersReply, statusesReply);
        && requests == l.requests
        && cache.cachedStatuses == l.cache
        && error == l.error
        && (l.lists.Some? ==> orders == l.lists.value.0 && statuses == l.lists.value.1)
        && (l.lists.None? ==> orders == old(orders) && statuses == old(statuses))
      ensures !loading
    {
      error := None;
      loading := true;
      requests := LoadData(cache, ordersReply, statusesReply);
    }

    /** `handleStatusChange(orderId, statusName)`: the server's updated order replaces the local one with that id. */
    method HandleStatusChange(orderId: int, statusName: string, reply: Response<Order>) returns (request: Request)
      modifies this
      ensures request == Request(Patch, OrderPath(orderId), StatusNameBody(statusName))
      ensures reply.Success? ==> orders == ReplaceById(old(orders), orderId, reply.data) && error == old(error)
      ensures reply.HttpError? ==> orders == old(orders) && error == Some(UPDATE_FAILED_PREFIX + STATUS_UPDATE_FAILED + ".")
      ensures statuses == old(statuses) && loading == old(loading)
    {
      var call := UpdateOrderStatusByName(orderId, statusName, reply);
      request := call.request;
      match call.outcome {
        case Ok(updated) =>
          orders := ReplaceById(orders, orderId, updated);
        case Thrown(e) =>
          error := Some(UpdateErrorMessage(e));
      }
    }

    /** The picker of order `i`: choosing status `k` sends that status's name, never its id. */
    method PickStatus(i: nat, k: nat, reply: Response<Order>) returns (request: Request)
      requires i < |orders| && k < |statuses|
      modifies this
      ensures request == Request(Patch, OrderPath(old(orders)[i].id), StatusNameBody(old(statuses)[k].name))
      ensures reply.Success? ==> orders == ReplaceById(old(orders), old(orders)[i].id, reply.data) && error == old(error)
      ensures reply.HttpError? ==> orders == old(orders) && error == Some(UPDATE_FAILED_PREFIX + STATUS_UPDATE_FAILED + ".")
      ensures statuses == old(statuses) && loading == old(loading)
    {
      request := HandleStatusChange(orders[i].id, statuses[k].name, reply);
    }

    /** `handleLogout()`: the session is cleared and the screen is replaced by Login; `logout` never throws here. */
    method HandleLogout(auth: Auth.AuthState) returns (navigateTo: string)
      modifies auth
      ensures auth.user == None && auth.userId == None && auth.isAuthReady == old(auth.isAuthReady)
      ensures navigateTo == LOGIN_SCREEN
    {
      auth.Logout();
      navigateTo := LOGIN_SCREEN;
    }
  }
}
