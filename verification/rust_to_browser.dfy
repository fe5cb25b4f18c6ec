/**
  A browser session on one connection of the Rust server: what the server's room sends in order,
  printed by the server and handled by the browser.
 */
module RustToBrowser {
  import opened Options
  import opened Messages
  import opened BrowserParse
  import opened BrowserApp
  import R = RustRoom

  // The message that the server prints for a broadcast.
  function EntryMessage(e: R.Entry): (m: Message)
    ensures m.timestamp >= 0
  {
    match e
    case Connected(u, ts) => SystemMessage(Connect, u, ts)
    case Said(u, contents, ts) => Message(u, Chat, contents, ts)
    case Gone(u, ts) => SystemMessage(Disconnect, u, ts)
  }

  // The text messages that a connection's output puts on its socket. A pong and a close are
  // control frames, which the message handler does not see.
  function Texts(out: seq<R.Out>): seq<string> {
    if out == [] then []
    else Texts(out[..|out| - 1]) + TextOf(out[|out| - 1])
  }

  function TextOf(o: R.Out): seq<string> {
    match o
    case Room(e) => [RustText(EntryMessage(e))]
    case BadMessage(ts) => [RustText(SystemMessage(Error, "bad message", ts))]
    case PongReply => []
    case CloseReply => []
  }

  // The members that a browser finds in a text.
  predicate ReadsAs(text: string, sender: string, action: string, contents: string, timestamp: nat) {
    var r := ParseMessage(text);
    && r.Some?
    && Get(r.value, "sender") == Some(sender) && Get(r.value, "action") == Some(action)
    && Get(r.value, "contents") == Some(contents) && r.value.timestamp == Some(timestamp)
  }

  /**
    What a browser reads in the text of each broadcast: a chat under the name of the client that
    sent it, with its contents; a newcomer's and a leaver's uuid in the system's name, the second
    with the misspelled action; each with the time it was stamped.
   */
  lemma EntryReads(e: R.Entry)
    ensures e.Said? ==> ReadsAs(RustText(EntryMessage(e)), e.uuid, "chat", e.contents, e.ts)
    ensures e.Connected? ==> ReadsAs(RustText(EntryMessage(e)), "system", "connect", e.uuid, e.ts)
    ensures e.Gone? ==> ReadsAs(RustText(EntryMessage(e)), "system", "discconnect", e.uuid, e.ts)
  {
    ParseInvertsRust(EntryMessage(e));
    hide ParseMessage, RustText, Get;
  }

  /**
    Exactly which messages of the Rust server reset the browser: errors, and every disconnect,
    whoever it is of, since its misspelled action falls to the default of the browser's switch.
   */
  lemma RustResetsIff(s: Session, m: Message)
    requires m.timestamp >= 0
    ensures Resets(s, RustText(m)) <==> m.action.Disconnect? || m.action.Error?
    ensures m.action.Disconnect? ==> HandleMessage(s, RustText(m)) == Reset(s)
  {
    ParseInvertsRust(m);
    RustActionCodec(m.action);
    hide ParseMessage, RustText, Insert, ActionFromName, RustActionName;
  }

  // The room texts up to some output are those of the slice up to it.
  lemma {:induction false} RoomTextsAt(out: seq<R.Out>, j: nat)
    requires j < |out| && out[j].Room?
    ensures |R.RoomTexts(out[..j])| < |R.RoomTexts(out)|
    ensures R.RoomTexts(out)[|R.RoomTexts(out[..j])|] == out[j].entry
    decreases |out|
  {
    var n := |out| - 1;
    if j == n {
      assert out[..j] == out[..n];
    } else {
      RoomTextsAt(out[..n], j);
      assert out[..n][..j] == out[..j];
    }
  }

  /**
    In every run of the Rust server, as soon as a browser handles the broadcast that some client,
    its own or another, has left, it drops its socket, its uuid and its whole message list. The
    broadcast is the one that the log has at that distance from the browser's own connect.
   */
  lemma AnyDisconnectResets(cs: seq<R.Choice>, s: R.State, c: R.ConnId, first: Session, j: nat)
    requires R.Exec(R.Init(), cs) == Some(s) && c in s.conns
    requires j < |s.conns[c].out| && s.conns[c].out[j].Room? && s.conns[c].out[j].entry.Gone?
    ensures var out := s.conns[c].out;
      && HandleAll(first, Texts(out[..j + 1])) == Reset(HandleAll(first, Texts(out[..j])))
      && var i := R.Lo(s.log, s.conns[c].uuid) + |R.RoomTexts(out[..j])|;
         i < |s.log| && s.log[i] == out[j].entry
  {
    hide HandleAll, HandleMessage, Reset, Texts, RustText, R.Exec, R.Lo, R.Hi, R.RoomTexts;
    R.PushedSlice(cs, s, c);
    RoomTextsAt(s.conns[c].out, j);
    GoneResets(s.conns[c].out, first, j);
  }

  lemma GoneResets(out: seq<R.Out>, first: Session, j: nat)
    requires j < |out| && out[j].Room? && out[j].entry.Gone?
    ensures HandleAll(first, Texts(out[..j + 1])) == Reset(HandleAll(first, Texts(out[..j])))
  {
    hide HandleMessage, Reset, RustText;
    assert out[..j + 1][..j] == out[..j];
    var texts := Texts(out[..j + 1]);
    assert texts[..|texts| - 1] == Texts(out[..j]);
    RustResetsIff(HandleAll(first, Texts(out[..j])), EntryMessage(out[j].entry));
  }

  /**
    So does the reply to a bad message, of which the browser keeps the reply itself.
   */
  lemma BadReplyResets(out: seq<R.Out>, first: Session, j: nat)
    requires j < |out| && out[j].BadMessage?
    ensures var s := HandleAll(first, Texts(out[..j + 1]));
      && s.uuid == Some("") && !s.hasWs
      && |s.messages| == 1 && Get(s.messages[0], "contents") == Some("bad message")
  {
    hide HandleMessage, RustText;
    assert out[..j + 1][..j] == out[..j];
    var texts := Texts(out[..j + 1]);
    assert texts[..|texts| - 1] == Texts(out[..j]);
    ErrorResets(HandleAll(first, Texts(out[..j])), out[j].ts);
  }

  lemma ErrorResets(s: Session, ts: nat)
    ensures var s' := HandleMessage(s, RustText(SystemMessage(Error, "bad message", ts)));
      && s'.uuid == Some("") && !s'.hasWs
      && |s'.messages| == 1 && Get(s'.messages[0], "contents") == Some("bad message")
  {
    var m := SystemMessage(Error, "bad message", ts);
    var data := RustText(m);
    ParseInvertsRust(m);
    RustActionCodec(m.action);
    RustResetsIff(s, m);
    EmptyAfterIff(s, data);
    hide ParseMessage, RustText, Insert, ActionFromName, RustActionName;
  }
}
