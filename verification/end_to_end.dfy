/**
  One browser session on one connection of the C++ server: the server's room, its write queue,
  its JSON printer, the browser's parser and the browser's handlers together.
 */
module EndToEnd {
  import opened Options
  import opened Messages
  import opened BrowserParse
  import opened BrowserApp
  import Room = CppRoom

  // The texts that a connection's completed writes put on its socket.
  function Texts(posts: seq<Room.Posted>): (ts: seq<string>)
    ensures |ts| == |posts|
  {
    seq(|posts|, i requires 0 <= i < |posts| => CppText(posts[i].msg))
  }

  // A session whose socket has opened.
  function Opened(): Session {
    Session(true, true, Some(""), [])
  }

  // The first message assigns the uuid.
  lemma ConnectAssigns(msg: Message, uuid: string)
    requires Room.OwnConnect(msg, uuid)
    ensures HandleMessage(Opened(), CppText(msg)).uuid == Some(uuid)
    ensures !Resets(Opened(), CppText(msg))
  {
    ParseInvertsCpp(msg);
    hide ParseMessage, CppText, Insert, Get;
    ActionCodec(ActionName(Connect), Connect);
  }

  lemma {:induction false} UuidStaysAll(s: Session, datas: seq<string>, uuid: string)
    requires datas != [] && Undisturbed(s, datas) && uuid != ""
    requires HandleMessage(s, datas[0]).uuid == Some(uuid)
    ensures HandleAll(s, datas).uuid == Some(uuid)
    decreases |datas|
  {
    hide HandleMessage, Resets;
    var n := |datas| - 1;
    if n == 0 {
      assert datas[..0] == [];
    } else {
      UndisturbedPrefix(s, datas);
      UuidStaysAll(s, datas[..n], uuid);
      assert !Resets(HandleAll(s, datas[..n]), datas[n]);
      UuidStays(HandleAll(s, datas[..n]), datas[n]);
    }
  }

  /**
    Identity. In every run of the server, whatever the other connections do and whatever messages
    they make it broadcast, a browser that has handled a connection's messages from the first on,
    and has not been reset by them, has exactly the uuid the server assigned to the connection.
   */
  lemma BrowserKnowsItsUuid(cs: seq<Room.Choice>, s: Room.State, o: Room.Ptr, n: nat)
    requires Room.Exec(Room.Init(), cs) == Some(s) && o in s.objs
    requires s.objs[o].uuid != "" && 0 < n <= |s.objs[o].conn.done|
    requires Undisturbed(Opened(), Texts(s.objs[o].conn.done[..n]))
    ensures HandleAll(Opened(), Texts(s.objs[o].conn.done[..n])).uuid == Some(s.objs[o].uuid)
  {
    var done := s.objs[o].conn.done;
    Room.ConnectFirst(cs, s, o);
    ConnectAssigns(done[0].msg, s.objs[o].uuid);
    hide HandleMessage, HandleAll, Resets, Undisturbed, Room.Exec, CppText;
    UuidStaysAll(Opened(), Texts(done[..n]), s.objs[o].uuid);
  }
}
