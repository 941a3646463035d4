/**
 * The broker API manager: the event-listener registry, the table of
 * requests awaiting an answer, the routing of incoming messages to events,
 * and the connection status.
 *
 * The socket is reduced to its state (none, opening, open, closed) and the
 * events that change it; what is sent over it and the JSON it carries are
 * opaque values. A callback is known by its identity, and calling it is
 * recorded as a delivery rather than run.
 */
module DerivApi {
  import opened Common

  /** A callback's identity (`listener !== callback` compares identities). */
  type CallbackId = nat

  /** A request object before its `req_id` is added, kept opaque. */
  type Request = string

  /** The JSON values the manager passes on or inspects. Only the `action`
      field of an object is ever read. */
  datatype Value =
    | Undefined
    | Null
    | Num(x: real)
    | Str(s: string)
    | Object(action: Option<string>, body: string)

  /** JavaScript truthiness of a value. */
  predicate Truthy(v: Value)
  {
    match v
    case Undefined => false
    case Null => false
    case Num(x) => x != 0.0
    case Str(s) => s != ""
    case Object(_, _) => true
  }

  /** A parsed incoming message: `req_id` (None when absent), `msg_type`
      ("" when absent) and the three payload fields routing looks at. */
  datatype Message = Message(
    reqId: Option<int>,
    msgType: string,
    balance: Value,
    proposalOpenContract: Value,
    transaction: Value)

  /** One call of a listener with the data it was given. */
  datatype Delivery = Delivery(callback: CallbackId, data: Value)

  datatype SocketState = NoSocket | Opening | Open | Closed

  datatype ConnectionStatus = Disconnected | Connecting | Connected | Failed

  /** The listeners registered for `event`, none when it was never used. */
  function ListenersOf(listeners: map<string, seq<CallbackId>>, event: string): seq<CallbackId>
  {
    if event in listeners then listeners[event] else []
  }

  /** Every callback but `cb`, in the original order. */
  function Without(callbacks: seq<CallbackId>, cb: CallbackId): (r: seq<CallbackId>)
    ensures cb !in r
    ensures forall x :: x in callbacks && x != cb ==> x in r
  {
    Filter(callbacks, (x: CallbackId) => x != cb)
  }

  /** Removing `cb` removes no occurrence of another callback. */
  lemma {:induction false} WithoutKeepsOthers(callbacks: seq<CallbackId>, cb: CallbackId)
    ensures multiset(Without(callbacks, cb))[cb] == 0
    ensures forall x :: x != cb ==> multiset(Without(callbacks, cb))[x] == multiset(callbacks)[x]
  {
    if callbacks != [] {
      WithoutKeepsOthers(callbacks[1..], cb);
      assert callbacks == [callbacks[0]] + callbacks[1..];
    }
  }

  /** Removal keeps the order: it works piecewise on a concatenation. */
  lemma WithoutAppend(a: seq<CallbackId>, b: seq<CallbackId>, cb: CallbackId)
    ensures Without(a + b, cb) == Without(a, cb) + Without(b, cb)
  {
    FilterAppend(a, b, (x: CallbackId) => x != cb);
  }

  /** A callback that was not registered leaves the list as it was. */
  lemma WithoutAbsent(callbacks: seq<CallbackId>, cb: CallbackId)
    requires cb !in callbacks
    ensures Without(callbacks, cb) == callbacks
  {
    FilterKeepsAll(callbacks, (x: CallbackId) => x != cb);
  }

  /** The calls `emit` makes: each listener of `event`, in registration
      order, with the same data. */
  function Dispatch(listeners: map<string, seq<CallbackId>>, event: string, data: Value): (r: seq<Delivery>)
    ensures |r| == |ListenersOf(listeners, event)|
    ensures forall i :: 0 <= i < |r| ==> r[i] == Delivery(ListenersOf(listeners, event)[i], data)
  {
    Deliver(ListenersOf(listeners, event), data)
  }

  function Deliver(callbacks: seq<CallbackId>, data: Value): (r: seq<Delivery>)
    ensures |r| == |callbacks|
    ensures forall i :: 0 <= i < |r| ==> r[i] == Delivery(callbacks[i], data)
  {
    if callbacks == [] then [] else [Delivery(callbacks[0], data)] + Deliver(callbacks[1..], data)
  }

  /** `on` appends: afterwards an emit reaches the earlier listeners first,
      in their order, and the new callback last. */
  lemma DispatchAfterOn(listeners: map<string, seq<CallbackId>>, event: string, cb: CallbackId, data: Value)
    ensures Dispatch(listeners[event := ListenersOf(listeners, event) + [cb]], event, data)
         == Dispatch(listeners, event, data) + [Delivery(cb, data)]
  {
  }

  /** `off` silences exactly the removed callback: afterwards an emit reaches
      the other listeners in their order and never `cb`. */
  lemma DispatchAfterOff(listeners: map<string, seq<CallbackId>>, event: string, cb: CallbackId, data: Value)
    requires event in listeners
    ensures Dispatch(listeners[event := Without(listeners[event], cb)], event, data)
         == Deliver(Without(listeners[event], cb), data)
    ensures forall d :: d in Dispatch(listeners[event := Without(listeners[event], cb)], event, data) ==> d.callback != cb
  {
  }

  /** The events a message that answers no pending request raises:
      `balance_update` for a balance message with a balance,
      `trade_update` for a contract update, and `transaction` for a
      transaction, followed by `trade_result` when it is a sale. Reading
      the action of a missing transaction throws after the first event,
      which is caught and ends the handling. */
  function Route(listeners: map<string, seq<CallbackId>>, m: Message): (r: seq<Delivery>)
    ensures forall d :: d in r ==>
      || (m.msgType == "balance" && d.data == m.balance)
      || (m.msgType == "proposal_open_contract" && d.data == m.proposalOpenContract)
      || (m.msgType == "transaction" && d.data == m.transaction)
  {
    (if m.msgType == "balance" && Truthy(m.balance) then Dispatch(listeners, "balance_update", m.balance) else [])
    + (if m.msgType == "proposal_open_contract" then Dispatch(listeners, "trade_update", m.proposalOpenContract) else [])
    + (if m.msgType == "transaction" then
         Dispatch(listeners, "transaction", m.transaction)
         + (match m.transaction
            case Object(action, _) =>
              if action == Some("sell") then Dispatch(listeners, "trade_result", m.transaction) else []
            case _ => [])
       else [])
  }

  /** Only the three subscription types raise events. */
  lemma RouteOtherTypesSilent(listeners: map<string, seq<CallbackId>>, m: Message)
    requires m.msgType != "balance" && m.msgType != "proposal_open_contract" && m.msgType != "transaction"
    ensures Route(listeners, m) == []
  {
  }

  /** A balance message raises `balance_update` with its balance when it has
      one, and nothing otherwise. */
  lemma RouteBalance(listeners: map<string, seq<CallbackId>>, m: Message)
    requires m.msgType == "balance"
    ensures Truthy(m.balance) ==> Route(listeners, m) == Dispatch(listeners, "balance_update", m.balance)
    ensures !Truthy(m.balance) ==> Route(listeners, m) == []
  {
  }

  /** A contract update raises `trade_update` and nothing else. */
  lemma RouteContractUpdate(listeners: map<string, seq<CallbackId>>, m: Message)
    requires m.msgType == "proposal_open_contract"
    ensures Route(listeners, m) == Dispatch(listeners, "trade_update", m.proposalOpenContract)
  {
  }

  /** A transaction raises `transaction` first; `trade_result` follows
      exactly when it is a sale. */
  lemma RouteTransaction(listeners: map<string, seq<CallbackId>>, m: Message)
    requires m.msgType == "transaction"
    ensures m.transaction.Object? && m.transaction.action == Some("sell") ==>
      Route(listeners, m) == Dispatch(listeners, "transaction", m.transaction)
                             + Dispatch(listeners, "trade_result", m.transaction)
    ensures !(m.transaction.Object? && m.transaction.action == Some("sell")) ==>
      Route(listeners, m) == Dispatch(listeners, "transaction", m.transaction)
  {
  }

  /** The request ids handed out so far are 1 up to the counter, and every
      pending request has one of them. */
  predicate PendingBelow(counter: int, pending: map<int, Request>)
  {
    counter >= 1 && forall id :: id in pending ==> 1 <= id < counter
  }

  /** Handing out the next id keeps the table's ids below the counter, and
      the new id is not already taken. */
  lemma NextIdFresh(counter: int, pending: map<int, Request>, request: Request)
    requires PendingBelow(counter, pending)
    ensures counter !in pending
    ensures PendingBelow(counter + 1, pending[counter := request])
  {
  }

  /** Removing entries keeps the table's ids below the counter. */
  lemma RemovalKeepsIdsBelow(counter: int, pending: map<int, Request>, id: int)
    requires PendingBelow(counter, pending)
    ensures PendingBelow(counter, pending - {id})
  {
  }

  class DerivApiManager {
    var socket: SocketState
    var messageCounter: int
    var pendingRequests: map<int, Request>
    var eventListeners: map<string, seq<CallbackId>>
    var connectionStatus: ConnectionStatus
    var authData: Option<Value>
    var currentBalance: Option<Value>

    predicate Valid()
      reads this
    {
      PendingBelow(messageCounter, pendingRequests)
    }

    constructor ()
      ensures socket == NoSocket && messageCounter == 1
      ensures pendingRequests == map[] && eventListeners == map[]
      ensures connectionStatus == Disconnected && authData == None && currentBalance == None
      ensures Valid()
    {
      socket := NoSocket;
      messageCounter := 1;
      pendingRequests := map[];
      eventListeners := map[];
      connectionStatus := Disconnected;
      authData := None;
      currentBalance := None;
    }

    method On(event: string, cb: CallbackId)
      modifies this
      ensures eventListeners == old(eventListeners)[event := ListenersOf(old(eventListeners), event) + [cb]]
      ensures unchanged(`socket, `messageCounter, `pendingRequests, `connectionStatus, `authData, `currentBalance)
    {
      if event !in eventListeners {
        eventListeners := eventListeners[event := []];
      }
      eventListeners := eventListeners[event := eventListeners[event] + [cb]];
    }

    method Off(event: string, cb: CallbackId)
      modifies this
      ensures event in old(eventListeners) ==>
        eventListeners == old(eventListeners)[event := Without(old(eventListeners)[event], cb)]
      ensures event !in old(eventListeners) ==> eventListeners == old(eventListeners)
      ensures unchanged(`socket, `messageCounter, `pendingRequests, `connectionStatus, `authData, `currentBalance)
    {
      if event in eventListeners {
        eventListeners := eventListeners[event := Without(eventListeners[event], cb)];
      }
    }

    /** Calls each listener of `event` in turn. */
    method Emit(event: string, data: Value) returns (calls: seq<Delivery>)
      ensures calls == Dispatch(eventListeners, event, data)
    {
      calls := [];
      if event in eventListeners {
        var callbacks := eventListeners[event];
        var i := 0;
        while i < |callbacks|
          invariant 0 <= i <= |callbacks|
          invariant |calls| == i
          invariant forall j :: 0 <= j < i ==> calls[j] == Delivery(callbacks[j], data)
        {
          calls := calls + [Delivery(callbacks[i], data)];
          i := i + 1;
        }
      }
    }

    /** Starting a connection: the status becomes connecting and is
        announced, and a new socket starts opening in place of any old one. */
    method Connect() returns (calls: seq<Delivery>)
      modifies this
      ensures connectionStatus == Connecting && socket == Opening
      ensures calls == Dispatch(eventListeners, "status", Str("connecting"))
      ensures unchanged(`messageCounter, `pendingRequests, `eventListeners, `authData, `currentBalance)
    {
      connectionStatus := Connecting;
      calls := Emit("status", Str("connecting"));
      socket := Opening;
    }

    /** The socket opens and the authorisation request is sent. */
    method SocketOpened(authorize: Request) returns (id: int)
      requires Valid()
      modifies this
      ensures Valid()
      ensures socket == Open
      ensures id == old(messageCounter) && id !in old(pendingRequests)
      ensures pendingRequests == old(pendingRequests)[id := authorize]
      ensures messageCounter == old(messageCounter) + 1
      ensures unchanged(`eventListeners, `connectionStatus, `authData, `currentBalance)
    {
      socket := Open;
      var sent := SendRequest(authorize);
      id := sent.value;
    }

    /** The end of a successful authorisation and balance exchange. */
    method ConnectionEstablished(auth: Value, balance: Value) returns (calls: seq<Delivery>)
      modifies this
      ensures connectionStatus == Connected && authData == Some(auth) && currentBalance == Some(balance)
      ensures calls == Dispatch(eventListeners, "status", Str("connected"))
                       + Dispatch(eventListeners, "balance", balance)
      ensures unchanged(`socket, `messageCounter, `pendingRequests, `eventListeners)
    {
      authData := Some(auth);
      currentBalance := Some(balance);
      connectionStatus := Connected;
      var first := Emit("status", Str("connected"));
      var second := Emit("balance", balance);
      calls := first + second;
    }

    /** A failed exchange or a socket error. `authorized` is the
        authorization reply when the failure came at the balance step,
        after that reply was stored; `None` when authorization itself
        failed or the socket reported an error. */
    method ConnectionFailed(authorized: Option<Value>) returns (calls: seq<Delivery>)
      modifies this
      ensures connectionStatus == Failed
      ensures calls == Dispatch(eventListeners, "status", Str("error"))
      ensures authData == if authorized.Some? then authorized else old(authData)
      ensures unchanged(`socket, `messageCounter, `pendingRequests, `eventListeners, `currentBalance)
    {
      if authorized.Some? {
        authData := authorized;
      }
      connectionStatus := Failed;
      calls := Emit("status", Str("error"));
    }

    /** The socket's close handler. */
    method SocketClosed() returns (calls: seq<Delivery>)
      modifies this
      ensures connectionStatus == Disconnected
      ensures socket == if old(socket) == NoSocket then NoSocket else Closed
      ensures calls == Dispatch(eventListeners, "status", Str("disconnected"))
      ensures unchanged(`messageCounter, `pendingRequests, `eventListeners, `authData, `currentBalance)
    {
      if socket != NoSocket {
        socket := Closed;
      }
      connectionStatus := Disconnected;
      calls := Emit("status", Str("disconnected"));
    }

    /** Drops the socket and forgets the account; pending requests and
        listeners stay. */
    method Disconnect()
      modifies this
      ensures socket == NoSocket && connectionStatus == Disconnected
      ensures authData == None && currentBalance == None
      ensures unchanged(`messageCounter, `pendingRequests, `eventListeners)
    {
      socket := NoSocket;
      connectionStatus := Disconnected;
      authData := None;
      currentBalance := None;
    }

    /** Sends a request: without an open socket it is rejected and nothing
        is recorded; otherwise it takes the next id and waits in the table. */
    method SendRequest(request: Request) returns (id: Option<int>)
      requires Valid()
      modifies this
      ensures Valid()
      ensures old(socket) != Open ==> id == None && unchanged(this)
      ensures old(socket) == Open ==>
        && id == Some(old(messageCounter))
        && old(messageCounter) !in old(pendingRequests)
        && pendingRequests == old(pendingRequests)[old(messageCounter) := request]
        && messageCounter == old(messageCounter) + 1
      ensures unchanged(`socket, `eventListeners, `connectionStatus, `authData, `currentBalance)
    {
      if socket != Open {
        return None;
      }
      NextIdFresh(messageCounter, pendingRequests, request);
      var reqId := messageCounter;
      messageCounter := messageCounter + 1;
      pendingRequests := pendingRequests[reqId := request];
      id := Some(reqId);
    }

    /** The ten-second timer of request `id`: it rejects the request only if
        no answer removed it first. */
    method Timeout(id: int) returns (rejected: bool)
      requires Valid()
      modifies this
      ensures Valid()
      ensures rejected <==> id in old(pendingRequests)
      ensures pendingRequests == old(pendingRequests) - {id}
      ensures id !in pendingRequests
      ensures unchanged(`socket, `messageCounter, `eventListeners, `connectionStatus, `authData, `currentBalance)
    {
      rejected := id in pendingRequests;
      if rejected {
        RemovalKeepsIdsBelow(messageCounter, pendingRequests, id);
        pendingRequests := pendingRequests - {id};
      }
    }

    /** An incoming message (None when it is not valid JSON, which is
        logged and ignored). An answer to a pending request resolves and
        removes it and raises no event; any other message is routed. */
    method HandleMessage(message: Option<Message>) returns (resolved: Option<int>, calls: seq<Delivery>)
      requires Valid()
      modifies this
      ensures Valid()
      ensures message.None? ==> resolved == None && calls == [] && unchanged(this)
      ensures message.Some? && message.value.reqId.Some? && message.value.reqId.value != 0
              && message.value.reqId.value in old(pendingRequests) ==>
        && resolved == message.value.reqId
        && calls == []
        && pendingRequests == old(pendingRequests) - {message.value.reqId.value}
      ensures message.Some? && !(message.value.reqId.Some? && message.value.reqId.value != 0
              && message.value.reqId.value in old(pendingRequests)) ==>
        && resolved == None
        && calls == Route(eventListeners, message.value)
        && pendingRequests == old(pendingRequests)
      ensures unchanged(`socket, `messageCounter, `eventListeners, `connectionStatus, `authData, `currentBalance)
    {
      resolved, calls := None, [];
      if message.None? {
        return;
      }
      var m := message.value;
      if m.reqId.Some? && m.reqId.value != 0 && m.reqId.value in pendingRequests {
        RemovalKeepsIdsBelow(messageCounter, pendingRequests, m.reqId.value);
        pendingRequests := pendingRequests - {m.reqId.value};
        resolved := m.reqId;
        return;
      }
      calls := Route(eventListeners, m);
    }
  }
}
