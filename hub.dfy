/**
 The relay hub: the registry of connected clients, the id counter, and the
 connection, message and close handlers, the two broadcasts and the periodic
 sweep that read and update them. Every `send` is recorded in `sent`.
 */
module Relay {
  import opened Protocol
  import opened Routing

  /** The record kept for one connection: its id, its `type` and its address. */
  datatype ClientInfo = ClientInfo(id: nat, role: Role, ip: string)

  /** The invariant the handlers keep: the registry's keys are `order` without
      repeats, each registry entry is the record its connection's handlers hold,
      and every id handed out is distinct and below the counter. */
  ghost predicate Consistent(clients: map<Handle, ClientInfo>, order: seq<Handle>,
                             sessions: map<Handle, ClientInfo>, nextClientId: nat)
  {
    && nextClientId >= 1
    && NoDuplicates(order)
    && (forall h :: h in clients <==> h in order)
    && (forall h :: h in clients ==> h in sessions && clients[h] == sessions[h])
    && (forall h :: h in sessions ==> 1 <= sessions[h].id < nextClientId)
    && (forall h, k :: h in sessions && k in sessions && h != k ==> sessions[h].id != sessions[k].id)
  }

  /** Registering a new socket under the next id keeps the invariant. */
  lemma ConsistentConnect(clients: map<Handle, ClientInfo>, order: seq<Handle>,
                          sessions: map<Handle, ClientInfo>, nextClientId: nat, ws: Handle, ip: string)
    requires Consistent(clients, order, sessions, nextClientId)
    requires ws !in sessions
    ensures var info := ClientInfo(nextClientId, Unknown, ip);
            Consistent(clients[ws := info], order + [ws], sessions[ws := info], nextClientId + 1)
  {
    NoDuplicatesSnoc(order, ws);
  }

  /** Changing a connection's role, in its handlers' record and in the registry
      entry that shares it, keeps the invariant. */
  lemma ConsistentSetRole(clients: map<Handle, ClientInfo>, order: seq<Handle>,
                          sessions: map<Handle, ClientInfo>, nextClientId: nat, ws: Handle, role: Role)
    requires Consistent(clients, order, sessions, nextClientId)
    requires ws in sessions
    ensures var info := sessions[ws].(role := role);
            Consistent(if ws in clients then clients[ws := info] else clients, order,
                       sessions[ws := info], nextClientId)
  {
  }

  /** Deleting a connection everywhere keeps the invariant. */
  lemma ConsistentClose(clients: map<Handle, ClientInfo>, order: seq<Handle>,
                        sessions: map<Handle, ClientInfo>, nextClientId: nat, ws: Handle)
    requires Consistent(clients, order, sessions, nextClientId)
    ensures Consistent(clients - {ws}, Without(order, ws), sessions - {ws}, nextClientId)
  {
    WithoutMembers(order, ws);
  }

  /** Deleting the stale entries from the registry, and only from it, keeps the invariant. */
  lemma ConsistentSweep(clients: map<Handle, ClientInfo>, order: seq<Handle>,
                        sessions: map<Handle, ClientInfo>, nextClientId: nat, ready: Handle -> ReadyState)
    requires Consistent(clients, order, sessions, nextClientId)
    ensures Consistent(clients - StaleKeys(order, ready), Swept(order, ready), sessions, nextClientId)
  {
    SweptMembers(order, ready);
    StaleKeysMembers(order, ready);
  }

  class Hub {
    /** The registry: socket to record, in a Map whose keys iterate in `order`. */
    var clients: map<Handle, ClientInfo>
    /** The insertion order of the registry's keys, which every `forEach` follows. */
    var order: seq<Handle>
    /** The next id to hand out; the first is 1. */
    var nextClientId: nat
    /** The record each connection's own handlers hold on to. The registry shares
        that very record while the entry is present, so an update through the
        handlers shows in both; after the sweep drops the entry the handlers
        still have it. */
    var sessions: map<Handle, ClientInfo>
    /** Every `send` made so far, in order. */
    var sent: seq<Delivery>

    ghost predicate Valid()
      reads this`clients, this`order, this`nextClientId, this`sessions
    {
      Consistent(clients, order, sessions, nextClientId)
    }

    /** The state when the server starts: an empty registry and the counter at 1. */
    constructor ()
      ensures Valid()
      ensures clients == map[] && order == [] && sessions == map[]
      ensures nextClientId == 1 && sent == []
    {
      clients := map[];
      order := [];
      nextClientId := 1;
      sessions := map[];
      sent := [];
    }

    /** A new connection: take the next id, register the socket as `unknown`
        with its address, and send it the welcome prompt. */
    method OnConnect(ws: Handle, ip: string) returns (clientId: nat)
      requires Valid()
      requires ws !in sessions // every connection is a new socket
      modifies this
      ensures Valid()
      ensures clientId == old(nextClientId) && nextClientId == clientId + 1
      ensures forall h :: h in old(sessions) ==> old(sessions)[h].id < clientId
      ensures clients == old(clients)[ws := ClientInfo(clientId, Unknown, ip)]
      ensures order == old(order) + [ws]
      ensures sessions == old(sessions)[ws := ClientInfo(clientId, Unknown, ip)]
      ensures sent == old(sent) + [Delivery(ws, Welcome)]
    {
      clientId := nextClientId;
      nextClientId := nextClientId + 1;
      var clientInfo := ClientInfo(clientId, Unknown, ip);
      ConsistentConnect(clients, order, sessions, clientId, ws, ip);
      clients := clients[ws := clientInfo];
      order := order + [ws];
      sessions := sessions[ws := clientInfo];
      sent := sent + [Delivery(ws, Welcome)];
    }

    /** A text message from `ws`. A registration as `web` or `unity` sets the
        role whatever it was before, confirms it to `ws` and announces it to
        every OPEN client; any other `register:` message is dropped; anything
        else is relayed, tagged with the sender's role and id, to every OPEN
        client but the sender. */
    method OnMessage(ws: Handle, message: string, ready: Handle -> ReadyState)
      requires Valid()
      requires ws in sessions
      modifies this
      ensures Valid()
      ensures order == old(order) && nextClientId == old(nextClientId)
      ensures var info := old(sessions)[ws];
              match Classify(message)
              case SetRole(role) =>
                && sessions == old(sessions)[ws := info.(role := role)]
                && clients == (if ws in old(clients) then old(clients)[ws := info.(role := role)] else old(clients))
                && sent == old(sent) + [Delivery(ws, Registered(role, info.id))]
                           + Fanout(order, ready, None, System(ClientConnected(role, info.id)))
              case Ignore =>
                sessions == old(sessions) && clients == old(clients) && sent == old(sent)
              case RelayData(payload) =>
                && sessions == old(sessions) && clients == old(clients)
                && sent == old(sent) + Fanout(order, ready, Some(ws), Data(info.role, info.id, payload))
    {
      var clientInfo := sessions[ws];
      match Classify(message)
      case SetRole(role) =>
        ConsistentSetRole(clients, order, sessions, nextClientId, ws, role);
        clientInfo := clientInfo.(role := role);
        sessions := sessions[ws := clientInfo];
        if ws in clients {
          clients := clients[ws := clientInfo];
        }
        sent := sent + [Delivery(ws, Registered(role, clientInfo.id))];
        BroadcastSystemMessage(ClientConnected(role, clientInfo.id), ready);
      case Ignore =>
      case RelayData(payload) =>
        Broadcast(Data(clientInfo.role, clientInfo.id, payload), ws, ready);
    }

    /** The end of a connection: announce it if the client had registered,
        then delete it from the registry (which may already have lost it). */
    method OnClose(ws: Handle, ready: Handle -> ReadyState)
      requires Valid()
      requires ws in sessions
      modifies this
      ensures Valid()
      ensures var info := old(sessions)[ws];
              sent == old(sent) + (if info.role != Unknown
                                   then Fanout(old(order), ready, None, System(ClientDisconnected(info.role, info.id)))
                                   else [])
      ensures clients == old(clients) - {ws} && ws !in clients
      ensures order == Without(old(order), ws)
      ensures ws !in old(clients) ==> clients == old(clients) && order == old(order)
      ensures sessions == old(sessions) - {ws}
      ensures nextClientId == old(nextClientId)
    {
      var clientInfo := sessions[ws];
      var remaining, kept, others := clients - {ws}, Without(order, ws), sessions - {ws};
      ConsistentClose(clients, order, sessions, nextClientId, ws);
      if ws !in clients {
        assert ws !in order;
        WithoutAbsent(order, ws);
        assert remaining == clients;
      }
      if clientInfo.role != Unknown {
        BroadcastSystemMessage(ClientDisconnected(clientInfo.role, clientInfo.id), ready);
      }
      clients := remaining;
      order := kept;
      sessions := others;
    }

    /** A data broadcast: `message` to every OPEN client except `sender`. */
    method Broadcast(message: Msg, sender: Handle, ready: Handle -> ReadyState)
      modifies this`sent
      ensures sent == old(sent) + Fanout(order, ready, Some(sender), message)
    {
      var i := 0;
      while i < |order|
        invariant 0 <= i <= |order|
        invariant sent == old(sent) + Fanout(order[..i], ready, Some(sender), message)
      {
        var client := order[i];
        FanoutStep(order, i, ready, Some(sender), message);
        if client != sender && ready(client) == Open {
          sent := sent + [Delivery(client, message)];
        }
        i := i + 1;
      }
      assert order[..|order|] == order;
    }

    /** A system broadcast: the event to every OPEN client, none left out. */
    method BroadcastSystemMessage(event: SystemEvent, ready: Handle -> ReadyState)
      modifies this`sent
      ensures sent == old(sent) + Fanout(order, ready, None, System(event))
    {
      var i := 0;
      while i < |order|
        invariant 0 <= i <= |order|
        invariant sent == old(sent) + Fanout(order[..i], ready, None, System(event))
      {
        var client := order[i];
        FanoutStep(order, i, ready, None, System(event));
        if ready(client) == Open {
          sent := sent + [Delivery(client, System(event))];
        }
        i := i + 1;
      }
      assert order[..|order|] == order;
    }

    /** The periodic clean-up: visit the registry in order and delete every
        entry whose socket is CLOSING or CLOSED. The handlers' own records are
        left alone, so a swept connection's close handler still knows its role. */
    method Sweep(ready: Handle -> ReadyState)
      requires Valid()
      modifies this`clients, this`order
      ensures Valid()
      ensures clients == old(clients) - StaleKeys(old(order), ready)
      ensures order == Swept(old(order), ready)
    {
      ConsistentSweep(clients, order, sessions, nextClientId, ready);
      DeleteStale(ready);
      order := Swept(order, ready);
    }

    /** The sweep's visit of the registry. Deleting the visited entry does not
        disturb the rest of the visit, so the loop runs over the keys as they
        were; the surviving keys keep their relative order. */
    method DeleteStale(ready: Handle -> ReadyState)
      modifies this`clients
      ensures clients == old(clients) - StaleKeys(order, ready)
    {
      var i := 0;
      while i < |order|
        invariant 0 <= i <= |order|
        invariant clients == old(clients) - StaleKeys(order[..i], ready)
      {
        var client := order[i];
        StaleKeysStep(order, i, ready);
        if IsStale(ready(client)) {
          clients := clients - {client};
        }
        i := i + 1;
      }
      assert order[..|order|] == order;
    }
  }
}
