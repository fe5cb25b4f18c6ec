/**
  The methods of the C++ server object (wschat-cpp/include/server.cpp) as they change the set of
  connections and the connections in it, when the mutex is free and no other thread comes in
  between. CppRoom has the same methods one access at a time, in every interleaving.
 */
module CppServer {
  import opened Messages
  import Q = CppQueue

  type WsConn = Q.WsConn<Message>

  // What a broadcast does to one member of the set: a connection whose last shared pointer is
  // gone is passed over.
  ghost function Told(c: Q.Conn<Message>, alive: bool, msg: Message): Q.Conn<Message> {
    if alive then Q.Send(c, msg) else c
  }

  class Server {
    var clients: set<WsConn>

    constructor ()
      ensures clients == {}
    {
      clients := {};
    }

    // `alive` holds the connections whose weak_from_this().lock() yields a pointer.
    method BroadcastMsgText(msg: Message, alive: set<WsConn>)
      modifies clients
      ensures forall ws :: ws in clients ==> ws.View() == Told(old(ws.View()), ws in alive, msg)
    {
      hide Q.Send;
      var rest := clients;
      while rest != {}
        invariant rest <= clients
        invariant forall ws :: ws in clients ==>
          ws.View() == if ws in rest then old(ws.View()) else Told(old(ws.View()), ws in alive, msg)
      {
        var ws :| ws in rest;
        if ws in alive {
          ws.Post(msg);
        }
        rest := rest - {ws};
      }
    }

    // The newcomer gets its connect message before it is a member, and so only once.
    method Connect(ws: WsConn, uuid: string, now: int, alive: set<WsConn>)
      modifies this, clients, ws
      ensures clients == old(clients) + {ws}
      ensures var msg := SystemMessage(Action.Connect, uuid, now);
        forall w :: w in clients ==>
          w.View() == Told(Told(old(w.View()), w == ws, msg), w in old(clients) && w in alive, msg)
    {
      hide Q.Send;
      var msg := SystemMessage(Action.Connect, uuid, now);
      ws.Post(msg);
      BroadcastMsgText(msg, alive);
      clients := clients + {ws};
    }

    // Called by the destructor, when `ws` itself has no shared pointer left.
    method Disconnect(ws: WsConn, uuid: string, now: int, alive: set<WsConn>)
      modifies this, clients
      ensures clients == old(clients) - {ws}
      ensures forall w :: w in old(clients) ==>
        w.View() == Told(old(w.View()), w in alive, SystemMessage(Action.Disconnect, uuid, now))
    {
      hide Q.Send;
      BroadcastMsgText(SystemMessage(Action.Disconnect, uuid, now), alive);
      clients := clients - {ws};
    }
  }
}
