/**
 Whole sessions with the hub, from a fresh start, and exactly what each client
 is sent. Each one uses only the contracts of the handlers; every step is a
 method of its own that takes the hub from one known state to the next.
 */
module Scenarios {
  import opened Protocol
  import opened Routing
  import opened Relay

  /** Every socket OPEN; every socket but `gone` OPEN. */
  function AllOpen(): Handle -> ReadyState { (h: Handle) => Open }
  function AllOpenBut(gone: Handle): Handle -> ReadyState { (h: Handle) => if h == gone then Closed else Open }
  /** Every socket OPEN but `leaving`, which is CLOSING. */
  function ClosingOnly(leaving: Handle): Handle -> ReadyState { (h: Handle) => if h == leaving then Closing else Open }

  /** The hub holds exactly this state. */
  ghost predicate At(hub: Hub, clients: map<Handle, ClientInfo>, order: seq<Handle>,
                     sessions: map<Handle, ClientInfo>, nextClientId: nat)
    reads hub
  {
    && hub.Valid()
    && hub.clients == clients && hub.order == order
    && hub.sessions == sessions && hub.nextClientId == nextClientId
  }

  /** A broadcast over a registry of one key. */
  lemma FanoutSingle(a: Handle, ready: Handle -> ReadyState, skip: Option<Handle>, m: Msg)
    ensures Fanout([a], ready, skip, m)
            == (if ready(a) == Open && skip != Some(a) then [Delivery(a, m)] else [])
  {
    assert [a][..0] == [];
  }

  /** A broadcast over a registry of two keys. */
  lemma FanoutPair(a: Handle, b: Handle, ready: Handle -> ReadyState, skip: Option<Handle>, m: Msg)
    ensures Fanout([a, b], ready, skip, m)
            == (if ready(a) == Open && skip != Some(a) then [Delivery(a, m)] else [])
               + (if ready(b) == Open && skip != Some(b) then [Delivery(b, m)] else [])
  {
    FanoutStep([a, b], 0, ready, skip, m);
    FanoutStep([a, b], 1, ready, skip, m);
    assert [a, b][..0] == [] && [a, b][..2] == [a, b];
  }

  /** A sweep of two keys of which the second is CLOSING. */
  lemma SweepPair(a: Handle, b: Handle)
    requires a != b
    ensures StaleKeys([a, b], ClosingOnly(b)) == {b}
    ensures Swept([a, b], ClosingOnly(b)) == [a]
  {
    var closing := ClosingOnly(b);
    StaleKeysStep([a, b], 0, closing);
    StaleKeysStep([a, b], 1, closing);
    SweptStep([a, b], 0, closing);
    SweptStep([a, b], 1, closing);
    assert [a, b][..0] == [] && [a, b][..2] == [a, b];
  }

  method ConnectFirst(hub: Hub, a: Handle)
    requires At(hub, map[], [], map[], 1) && hub.sent == []
    modifies hub
    ensures At(hub, map[a := ClientInfo(1, Unknown, "10.0.0.1")], [a], map[a := ClientInfo(1, Unknown, "10.0.0.1")], 2)
    ensures hub.sent == [Delivery(a, Welcome)]
  {
    var id := hub.OnConnect(a, "10.0.0.1");
  }

  method ConnectSecond(hub: Hub, a: Handle, b: Handle, infoA: ClientInfo)
    requires a != b && infoA.id == 1
    requires At(hub, map[a := infoA], [a], map[a := infoA], 2)
    modifies hub
    ensures At(hub, map[a := infoA, b := ClientInfo(2, Unknown, "10.0.0.2")], [a, b],
               map[a := infoA, b := ClientInfo(2, Unknown, "10.0.0.2")], 3)
    ensures hub.sent == old(hub.sent) + [Delivery(b, Welcome)]
  {
    var id := hub.OnConnect(b, "10.0.0.2");
  }

  /** The only client registers as web: the announcement reaches that client itself. */
  method RegisterAlone(hub: Hub, a: Handle)
    requires At(hub, map[a := ClientInfo(1, Unknown, "10.0.0.1")], [a], map[a := ClientInfo(1, Unknown, "10.0.0.1")], 2)
    modifies hub
    ensures At(hub, map[a := ClientInfo(1, Web, "10.0.0.1")], [a], map[a := ClientInfo(1, Web, "10.0.0.1")], 2)
    ensures hub.sent == old(hub.sent) + [Delivery(a, Registered(Web, 1)), Delivery(a, System(ClientConnected(Web, 1)))]
  {
    assert Classify("register:web") == SetRole(Web) by {
      assert "register:web" == RegisterPrefix + RoleName(Web);
    }
    FanoutSingle(a, AllOpen(), None, System(ClientConnected(Web, 1)));
    hub.OnMessage(a, "register:web", AllOpen());
  }

  /** The second client registers as `role`: both clients hear of it. */
  method RegisterSecond(hub: Hub, a: Handle, b: Handle, infoA: ClientInfo, role: Role)
    requires a != b && role != Unknown
    requires At(hub, map[a := infoA, b := ClientInfo(2, Unknown, "10.0.0.2")], [a, b],
                map[a := infoA, b := ClientInfo(2, Unknown, "10.0.0.2")], 3)
    modifies hub
    ensures At(hub, map[a := infoA, b := ClientInfo(2, role, "10.0.0.2")], [a, b],
               map[a := infoA, b := ClientInfo(2, role, "10.0.0.2")], 3)
    ensures hub.sent == old(hub.sent) + [Delivery(b, Registered(role, 2)),
                                         Delivery(a, System(ClientConnected(role, 2))),
                                         Delivery(b, System(ClientConnected(role, 2)))]
  {
    var message := RegisterPrefix + RoleName(role);
    assert Classify(message) == SetRole(role);
    FanoutPair(a, b, AllOpen(), None, System(ClientConnected(role, 2)));
    hub.OnMessage(b, message, AllOpen());
  }

  /** The second client sends plain text: only the first client gets it. */
  method RelayFromSecond(hub: Hub, a: Handle, b: Handle, infoA: ClientInfo, infoB: ClientInfo, text: string)
    requires a != b && !(RegisterPrefix <= text)
    requires At(hub, map[a := infoA, b := infoB], [a, b], map[a := infoA, b := infoB], 3)
    modifies hub
    ensures At(hub, map[a := infoA, b := infoB], [a, b], map[a := infoA, b := infoB], 3)
    ensures hub.sent == old(hub.sent) + [Delivery(a, Data(infoB.role, infoB.id, text))]
  {
    FanoutPair(a, b, AllOpen(), Some(b), Data(infoB.role, infoB.id, text));
    hub.OnMessage(b, text, AllOpen());
  }

  /** The second client's socket closes: the first client hears of it if it had registered. */
  method CloseSecond(hub: Hub, a: Handle, b: Handle, infoA: ClientInfo, infoB: ClientInfo)
    requires a != b
    requires At(hub, map[a := infoA, b := infoB], [a, b], map[a := infoA, b := infoB], 3)
    modifies hub
    ensures At(hub, map[a := infoA], [a], map[a := infoA], 3)
    ensures hub.sent == old(hub.sent) + (if infoB.role != Unknown
                                         then [Delivery(a, System(ClientDisconnected(infoB.role, infoB.id)))]
                                         else [])
  {
    FanoutPair(a, b, AllOpenBut(b), None, System(ClientDisconnected(infoB.role, infoB.id)));
    assert Without([a, b], b) == [a] by {
      assert [a][..0] == [];
      assert Without([a], b) == [a];
      assert [a, b][..1] == [a];
    }
    assert map[a := infoA, b := infoB] - {b} == map[a := infoA];
    hub.OnClose(b, AllOpenBut(b));
  }

  /** A registers as web and gets id 1; B registers as unity and gets id 2;
      B relays "hello"; B disconnects. The system broadcast on A's registration
      reaches A itself, the relayed data does not go back to B, and B's
      departure is announced to A only. */
  method RegisterRelayDisconnect(a: Handle, b: Handle) returns (log: seq<Delivery>, registry: map<Handle, ClientInfo>)
    requires a != b
    ensures log == [Delivery(a, Welcome)]
                   + [Delivery(a, Registered(Web, 1)), Delivery(a, System(ClientConnected(Web, 1)))]
                   + [Delivery(b, Welcome)]
                   + [Delivery(b, Registered(Unity, 2)),
                      Delivery(a, System(ClientConnected(Unity, 2))), Delivery(b, System(ClientConnected(Unity, 2)))]
                   + [Delivery(a, Data(Unity, 2, "hello"))]
                   + [Delivery(a, System(ClientDisconnected(Unity, 2)))]
    ensures registry == map[a := ClientInfo(1, Web, "10.0.0.1")]
  {
    var hub := new Hub();
    var infoA := ClientInfo(1, Web, "10.0.0.1");
    ConnectFirst(hub, a);
    RegisterAlone(hub, a);
    ConnectSecond(hub, a, b, infoA);
    RegisterSecond(hub, a, b, infoA, Unity);
    assert !(RegisterPrefix <= "hello") by { assert "hello"[0] != RegisterPrefix[0]; }
    RelayFromSecond(hub, a, b, infoA, ClientInfo(2, Unity, "10.0.0.2"), "hello");
    CloseSecond(hub, a, b, infoA, ClientInfo(2, Unity, "10.0.0.2"));
    log := hub.sent;
    registry := hub.clients;
  }

  /** The first client sends plain text: only the second client gets it. */
  method RelayFromFirst(hub: Hub, a: Handle, b: Handle, infoA: ClientInfo, infoB: ClientInfo, text: string)
    requires a != b && !(RegisterPrefix <= text)
    requires At(hub, map[a := infoA, b := infoB], [a, b], map[a := infoA, b := infoB], 3)
    modifies hub
    ensures At(hub, map[a := infoA, b := infoB], [a, b], map[a := infoA, b := infoB], 3)
    ensures hub.sent == old(hub.sent) + [Delivery(b, Data(infoA.role, infoA.id, text))]
  {
    FanoutPair(a, b, AllOpen(), Some(a), Data(infoA.role, infoA.id, text));
    hub.OnMessage(a, text, AllOpen());
  }

  /** The first client sends a registration for a role the hub does not know: nothing happens. */
  method IgnoreFromFirst(hub: Hub, a: Handle, b: Handle, infoA: ClientInfo, infoB: ClientInfo, message: string)
    requires a != b && Classify(message) == Ignore
    requires At(hub, map[a := infoA, b := infoB], [a, b], map[a := infoA, b := infoB], 3)
    modifies hub
    ensures At(hub, map[a := infoA, b := infoB], [a, b], map[a := infoA, b := infoB], 3)
    ensures hub.sent == old(hub.sent)
  {
    hub.OnMessage(a, message, AllOpen());
  }

  /** The only client, already registered, registers again as `role`. */
  method RegisterAgain(hub: Hub, a: Handle, infoA: ClientInfo, role: Role)
    requires role != Unknown
    requires At(hub, map[a := infoA], [a], map[a := infoA], 2)
    modifies hub
    ensures At(hub, map[a := infoA.(role := role)], [a], map[a := infoA.(role := role)], 2)
    ensures hub.sent == old(hub.sent) + [Delivery(a, Registered(role, infoA.id)),
                                         Delivery(a, System(ClientConnected(role, infoA.id)))]
  {
    var message := RegisterPrefix + RoleName(role);
    assert Classify(message) == SetRole(role);
    FanoutSingle(a, AllOpen(), None, System(ClientConnected(role, infoA.id)));
    hub.OnMessage(a, message, AllOpen());
  }

  /** A sends `register:martian`: nothing is sent and A stays unknown; A's next
      plain message reaches B tagged as coming from an unknown client. */
  method UnknownRoleStillRelays(a: Handle, b: Handle) returns (log: seq<Delivery>, registry: map<Handle, ClientInfo>)
    requires a != b
    ensures log == [Delivery(a, Welcome)] + [Delivery(b, Welcome)] + [Delivery(b, Data(Unknown, 1, "ping"))]
    ensures registry == map[a := ClientInfo(1, Unknown, "10.0.0.1"), b := ClientInfo(2, Unknown, "10.0.0.2")]
  {
    var hub := new Hub();
    var infoA := ClientInfo(1, Unknown, "10.0.0.1");
    var infoB := ClientInfo(2, Unknown, "10.0.0.2");
    ConnectFirst(hub, a);
    ConnectSecond(hub, a, b, infoA);
    assert Classify("register:martian") == Ignore by {
      assert RegisterPrefix <= "register:martian";
    }
    IgnoreFromFirst(hub, a, b, infoA, infoB, "register:martian");
    assert !(RegisterPrefix <= "ping") by { assert "ping"[0] != RegisterPrefix[0]; }
    RelayFromFirst(hub, a, b, infoA, infoB, "ping");
    log := hub.sent;
    registry := hub.clients;
  }

  /** A registers as web and then as unity: the second registration is not
      refused, the role becomes unity and both are confirmed and announced. */
  method RegisterTwice(a: Handle) returns (log: seq<Delivery>, registry: map<Handle, ClientInfo>)
    ensures log == [Delivery(a, Welcome)]
                   + [Delivery(a, Registered(Web, 1)), Delivery(a, System(ClientConnected(Web, 1)))]
                   + [Delivery(a, Registered(Unity, 1)), Delivery(a, System(ClientConnected(Unity, 1)))]
    ensures registry == map[a := ClientInfo(1, Unity, "10.0.0.1")]
  {
    var hub := new Hub();
    ConnectFirst(hub, a);
    RegisterAlone(hub, a);
    RegisterAgain(hub, a, ClientInfo(1, Web, "10.0.0.1"), Unity);
    log := hub.sent;
    registry := hub.clients;
  }

  /** The sweep with the second client's socket CLOSING drops it from the
      registry but not from its handlers' record. */
  method SweepSecond(hub: Hub, a: Handle, b: Handle, infoA: ClientInfo, infoB: ClientInfo)
    requires a != b
    requires At(hub, map[a := infoA, b := infoB], [a, b], map[a := infoA, b := infoB], 3)
    modifies hub
    ensures At(hub, map[a := infoA], [a], map[a := infoA, b := infoB], 3)
    ensures hub.sent == old(hub.sent)
  {
    var closing := ClosingOnly(b);
    SweepPair(a, b);
    assert map[a := infoA, b := infoB] - {b} == map[a := infoA];
    hub.Sweep(closing);
  }

  /** The close handler of a client the sweep already dropped. */
  method CloseSweptSecond(hub: Hub, a: Handle, b: Handle, infoA: ClientInfo, infoB: ClientInfo)
    requires a != b
    requires At(hub, map[a := infoA], [a], map[a := infoA, b := infoB], 3)
    modifies hub
    ensures At(hub, map[a := infoA], [a], map[a := infoA], 3)
    ensures hub.sent == old(hub.sent) + (if infoB.role != Unknown
                                         then [Delivery(a, System(ClientDisconnected(infoB.role, infoB.id)))]
                                         else [])
  {
    FanoutSingle(a, AllOpenBut(b), None, System(ClientDisconnected(infoB.role, infoB.id)));
    assert map[a := infoA, b := infoB] - {b} == map[a := infoA];
    hub.OnClose(b, AllOpenBut(b));
  }

  /** B registers, then its socket goes CLOSING and the sweep drops it before
      its close event fires. The close handler still announces B's departure
      from the record it holds, and its deletion finds nothing left to delete. */
  method SweepBeforeClose(a: Handle, b: Handle) returns (log: seq<Delivery>, registry: map<Handle, ClientInfo>)
    requires a != b
    ensures log == [Delivery(a, Welcome)]
                   + [Delivery(b, Welcome)]
                   + [Delivery(b, Registered(Web, 2)),
                      Delivery(a, System(ClientConnected(Web, 2))), Delivery(b, System(ClientConnected(Web, 2)))]
                   + [Delivery(a, System(ClientDisconnected(Web, 2)))]
    ensures registry == map[a := ClientInfo(1, Unknown, "10.0.0.1")]
  {
    var hub := new Hub();
    var infoA := ClientInfo(1, Unknown, "10.0.0.1");
    var infoB := ClientInfo(2, Web, "10.0.0.2");
    ConnectFirst(hub, a);
    ConnectSecond(hub, a, b, infoA);
    RegisterSecond(hub, a, b, infoA, Web);
    SweepSecond(hub, a, b, infoA, infoB);
    CloseSweptSecond(hub, a, b, infoA, infoB);
    log := hub.sent;
    registry := hub.clients;
  }
}
