/**
  The chat state of the browser client (server/static/js/index.js): the handlers of one
  WebSocket session and the ordered insertion into the message list.
 */
module BrowserApp {
  import opened Options
  import opened BrowserParse
  import opened Messages

  // `uuid` is None for the value undefined; it starts as the empty string.
  datatype Session = Session(hasWs: bool, isOpen: bool, uuid: Option<string>, messages: seq<JsMessage>)

  // ---------------------------------------------------------------- insertion

  // a.timestamp < b.timestamp, which is false when either is undefined.
  predicate Before(a: JsMessage, b: JsMessage) {
    a.timestamp.Some? && b.timestamp.Some? && a.timestamp.value < b.timestamp.value
  }

  // findLastIndex
  function LastBefore(messages: seq<JsMessage>, msg: JsMessage): (r: int)
    ensures -1 <= r < |messages|
    ensures r >= 0 ==> Before(messages[r], msg)
    ensures forall i :: r < i < |messages| ==> !Before(messages[i], msg)
  {
    if messages == [] then -1
    else if Before(messages[|messages| - 1], msg) then |messages| - 1
    else LastBefore(messages[..|messages| - 1], msg)
  }

  function Insert(messages: seq<JsMessage>, msg: JsMessage): seq<JsMessage> {
    var i := LastBefore(messages, msg) + 1;
    messages[..i] + [msg] + messages[i..]
  }

  function InsertAll(arrivals: seq<JsMessage>): seq<JsMessage> {
    if arrivals == [] then []
    else Insert(InsertAll(arrivals[..|arrivals| - 1]), arrivals[|arrivals| - 1])
  }

  // ---------------------------------------------------------------- the handlers

  function Reset(s: Session): Session {
    Session(false, s.isOpen && !s.hasWs, Some(""), [])
  }

  function AddMessage(s: Session, msg: JsMessage): Session {
    s.(messages := Insert(s.messages, msg))
  }

  // The case of the switch over msg.action; None is its default.
  function ActionOf(msg: JsMessage): Option<Action> {
    match Get(msg, "action")
    case None => None
    case Some(name) => ActionFromName(name)
  }

  function HandleMessage(s: Session, data: string): Session {
    match ParseMessage(data)
    case None => Reset(s)
    case Some(msg) => Dispatch(s, msg)
  }

  function Dispatch(s: Session, msg: JsMessage): Session {
    match ActionOf(msg)
    case Some(Connect) => AddMessage(if s.uuid == Some("") then s.(uuid := Get(msg, "contents")) else s, msg)
    case Some(Chat) => AddMessage(s, msg)
    case Some(Disconnect) => AddMessage(if Get(msg, "contents") == s.uuid then Reset(s) else s, msg)
    case Some(Error) => AddMessage(Reset(s), msg)
    case None => Reset(s)
  }

  // Whether the handler resets the session.
  predicate Resets(s: Session, data: string) {
    match ParseMessage(data)
    case None => true
    case Some(msg) =>
      match ActionOf(msg)
      case Some(Connect) => false
      case Some(Chat) => false
      case Some(Disconnect) => Get(msg, "contents") == s.uuid
      case _ => true
  }

  /** The application object, updated in place. */
  class App {
    var ws: bool
    var isOpen: bool
    var uuid: Option<string>
    var messages: seq<JsMessage>

    function View(): Session
      reads this
    {
      Session(ws, isOpen, uuid, messages)
    }

    constructor ()
      ensures View() == Session(false, false, Some(""), [])
    {
      ws, isOpen, uuid, messages := false, false, Some(""), [];
    }

    method OpenHandler()
      modifies this`isOpen
      ensures View() == old(View()).(isOpen := true)
    {
      isOpen := true;
    }

    method ResetState()
      modifies this
      ensures View() == Reset(old(View()))
      ensures uuid == Some("") && messages == [] && !ws && isOpen == (old(isOpen) && !old(ws))
    {
      if isOpen && ws {
        isOpen := false;
      }
      uuid := Some("");
      messages := [];
      ws := false;
    }

    method CloseHandler()
      modifies this
      ensures View() == if old(isOpen && ws) then Reset(old(View())) else old(View())
      ensures old(isOpen && ws) ==> uuid == Some("") && messages == [] && !ws && !isOpen
    {
      if isOpen && ws {
        ResetState();
      }
    }

    method MessageHandler(data: string)
      modifies this
      ensures View() == HandleMessage(old(View()), data)
    {
      hide ParseMessage, Insert, ActionOf, Get;
      var parsed := ParseMessage(data);
      if parsed.None? {
        ResetState();
        return;
      }
      var msg := parsed.value;
      match ActionOf(msg) {
        case Some(Connect) =>
          if uuid == Some("") {
            uuid := Get(msg, "contents");
          }
        case Some(Chat) =>
        case Some(Disconnect) =>
          if Get(msg, "contents") == uuid {
            ResetState();
          }
        case Some(Error) =>
          ResetState();
        case None =>
          ResetState();
          return;
      }
      Push(msg);
    }

    // The ordered insertion into the list.
    method Push(msg: JsMessage)
      modifies this`messages
      ensures messages == Insert(old(messages), msg)
    {
      hide LastBefore, Before;
      var index := LastBefore(messages, msg);
      messages := messages[..index + 1] + [msg] + messages[index + 1..];
    }
  }

  // ---------------------------------------------------------------- the order of the list

  // A message with the number of messages that arrived before it.
  datatype Tagged = Tagged(arrival: nat, msg: JsMessage)

  function Untagged(ts: seq<Tagged>): (ms: seq<JsMessage>)
    ensures |ms| == |ts|
  {
    seq(|ts|, i requires 0 <= i < |ts| => ts[i].msg)
  }

  // The same list, with its elements tagged.
  function Arranged(arrivals: seq<JsMessage>): (ts: seq<Tagged>)
    ensures |ts| == |arrivals|
  {
    if arrivals == [] then []
    else
      var n := |arrivals| - 1;
      Place(Arranged(arrivals[..n]), Tagged(n, arrivals[n]))
  }

  function Place(ts: seq<Tagged>, x: Tagged): (r: seq<Tagged>)
    ensures |r| == |ts| + 1
  {
    var i := LastBefore(Untagged(ts), x.msg) + 1;
    ts[..i] + [x] + ts[i..]
  }

  lemma PlaceIsInsert(ts: seq<Tagged>, x: Tagged)
    ensures Untagged(Place(ts, x)) == Insert(Untagged(ts), x.msg)
  {
    hide LastBefore;
    assert Untagged(Place(ts, x)) == Insert(Untagged(ts), x.msg);
  }

  lemma {:induction false} ArrangedIsInsertAll(arrivals: seq<JsMessage>)
    ensures Untagged(Arranged(arrivals)) == InsertAll(arrivals)
  {
    if arrivals != [] {
      var n := |arrivals| - 1;
      ArrangedIsInsertAll(arrivals[..n]);
      PlaceIsInsert(Arranged(arrivals[..n]), Tagged(n, arrivals[n]));
      hide Place, Insert, Untagged;
    }
  }

  // `a` may stand before `b`: by timestamp, the latest arrival first among equals; among those
  // without a timestamp, the latest arrival first.
  predicate Ordered(a: Tagged, b: Tagged) {
    match (a.msg.timestamp, b.msg.timestamp)
    case (Some(x), Some(y)) => x < y || (x == y && a.arrival > b.arrival)
    case (None, None) => a.arrival > b.arrival
    case _ => a.arrival != b.arrival
  }

  ghost predicate InOrder(ts: seq<Tagged>) {
    forall i, j :: 0 <= i < j < |ts| ==> Ordered(ts[i], ts[j])
  }

  // The latest arrival is put in its place.
  lemma PlaceKeepsOrder(ts: seq<Tagged>, x: Tagged)
    requires InOrder(ts) && forall i :: 0 <= i < |ts| ==> ts[i].arrival < x.arrival
    ensures InOrder(Place(ts, x))
    ensures forall i :: 0 <= i <= |ts| ==> Place(ts, x)[i] == x || Place(ts, x)[i] in ts
  {
    hide LastBefore, Ordered, Untagged;
    var p := LastBefore(Untagged(ts), x.msg);
    forall i: nat | i < |ts|
      ensures if i < p + 1 then Ordered(ts[i], x) else Ordered(x, ts[i])
    {
      OrderedWithLatest(ts, x, i);
    }
    SpliceInOrder(ts, x, p + 1);
  }

  lemma SpliceInOrder(ts: seq<Tagged>, x: Tagged, p: nat)
    requires InOrder(ts) && p <= |ts|
    requires forall i :: 0 <= i < |ts| ==> if i < p then Ordered(ts[i], x) else Ordered(x, ts[i])
    ensures InOrder(ts[..p] + [x] + ts[p..])
    ensures forall i :: 0 <= i <= |ts| ==> (ts[..p] + [x] + ts[p..])[i] == x || (ts[..p] + [x] + ts[p..])[i] in ts
  {
    hide Ordered;
    var ys := ts[..p] + [x] + ts[p..];
    assert forall i :: 0 <= i < |ys| ==> ys[i] == if i < p then ts[i] else if i == p then x else ts[i - 1];
  }

  lemma OrderedWithLatest(ts: seq<Tagged>, x: Tagged, i: nat)
    requires InOrder(ts) && i < |ts| && ts[i].arrival < x.arrival
    ensures if i <= LastBefore(Untagged(ts), x.msg) then Ordered(ts[i], x) else Ordered(x, ts[i])
  {
    hide LastBefore;
    var p := LastBefore(Untagged(ts), x.msg);
    assert Untagged(ts)[i] == ts[i].msg;
    if i < p {
      assert Ordered(ts[i], ts[p]);
      assert Untagged(ts)[p] == ts[p].msg;
    }
  }

  // Every element is the arrival its tag says.
  ghost predicate TagsTrue(ts: seq<Tagged>, arrivals: seq<JsMessage>) {
    forall t :: t in ts ==> t.arrival < |arrivals| && t.msg == arrivals[t.arrival]
  }

  lemma TagsStay(ts: seq<Tagged>, arrivals: seq<JsMessage>, n: nat, ys: seq<Tagged>)
    requires n < |arrivals| && TagsTrue(ts, arrivals[..n])
    requires forall i :: 0 <= i < |ys| ==> ys[i] == Tagged(n, arrivals[n]) || ys[i] in ts
    ensures TagsTrue(ys, arrivals)
  {
    forall t | t in ys
      ensures t.arrival < |arrivals| && t.msg == arrivals[t.arrival]
    {
    }
  }

  lemma {:induction false} ArrangedInOrder(arrivals: seq<JsMessage>)
    ensures InOrder(Arranged(arrivals)) && TagsTrue(Arranged(arrivals), arrivals)
  {
    hide Place, InOrder, TagsTrue;
    if arrivals == [] {
      NothingInOrder();
    } else {
      var n := |arrivals| - 1;
      var ts, x := Arranged(arrivals[..n]), Tagged(n, arrivals[n]);
      ArrangedInOrder(arrivals[..n]);
      TagsBelow(ts, arrivals[..n]);
      PlaceKeepsOrder(ts, x);
      TagsStay(ts, arrivals, n, Place(ts, x));
    }
  }

  lemma NothingInOrder()
    ensures InOrder([]) && TagsTrue([], [])
  {
  }

  lemma TagsBelow(ts: seq<Tagged>, arrivals: seq<JsMessage>)
    requires TagsTrue(ts, arrivals)
    ensures forall i :: 0 <= i < |ts| ==> ts[i].arrival < |arrivals|
  {
    assert forall i :: 0 <= i < |ts| ==> ts[i] in ts;
  }

  /**
    The list is a rearrangement of the messages that arrived, whatever the order of arrival: the
    element at every place is the arrival that its tag says, no two have the same tag, the
    timestamps are sorted even with messages without one in between, and messages with equal
    timestamps, as well as messages without one, stand in reverse order of arrival.
   */
  lemma ListIsOrdered(arrivals: seq<JsMessage>)
    ensures var ts := Arranged(arrivals);
      && Untagged(ts) == InsertAll(arrivals)
      && (forall t :: t in ts ==> t.arrival < |arrivals| && t.msg == arrivals[t.arrival])
      && (forall i, j :: 0 <= i < j < |ts| ==> Ordered(ts[i], ts[j]) && ts[i].arrival != ts[j].arrival)
  {
    ArrangedIsInsertAll(arrivals);
    ArrangedInOrder(arrivals);
    hide Arranged, InsertAll, Untagged;
  }

  lemma SpliceMultiset<T>(ms: seq<T>, i: nat, x: T)
    requires i <= |ms|
    ensures multiset(ms[..i] + [x] + ms[i..]) == multiset(ms) + multiset{x}
  {
    assert ms == ms[..i] + ms[i..];
  }

  lemma InsertMultiset(ms: seq<JsMessage>, x: JsMessage)
    ensures multiset(Insert(ms, x)) == multiset(ms) + multiset{x}
  {
    hide LastBefore;
    SpliceMultiset(ms, LastBefore(ms, x) + 1, x);
  }

  /** No message is lost or doubled. */
  lemma {:induction false} ListIsPermutation(arrivals: seq<JsMessage>)
    ensures multiset(InsertAll(arrivals)) == multiset(arrivals)
  {
    hide Insert;
    if arrivals != [] {
      var n := |arrivals| - 1;
      ListIsPermutation(arrivals[..n]);
      InsertMultiset(InsertAll(arrivals[..n]), arrivals[n]);
      assert arrivals == arrivals[..n] + [arrivals[n]];
    }
  }

  // ---------------------------------------------------------------- sessions

  function HandleAll(s: Session, datas: seq<string>): Session
    decreases |datas|
  {
    if datas == [] then s else HandleMessage(HandleAll(s, datas[..|datas| - 1]), datas[|datas| - 1])
  }

  // None of the messages resets the session.
  ghost predicate Undisturbed(s: Session, datas: seq<string>) {
    forall i :: 0 <= i < |datas| ==> !Resets(HandleAll(s, datas[..i]), datas[i])
  }

  function Parsed(datas: seq<string>): seq<JsMessage>
    requires forall i :: 0 <= i < |datas| ==> ParseMessage(datas[i]).Some?
  {
    seq(|datas|, i requires 0 <= i < |datas| => ParseMessage(datas[i]).value)
  }

  lemma UndisturbedPrefix(s: Session, datas: seq<string>)
    requires datas != [] && Undisturbed(s, datas)
    ensures Undisturbed(s, datas[..|datas| - 1])
  {
    hide Resets, HandleAll;
    var n := |datas| - 1;
    forall i | 0 <= i < n
      ensures !Resets(HandleAll(s, datas[..n][..i]), datas[..n][i])
    {
      assert datas[..n][..i] == datas[..i];
      assert !Resets(HandleAll(s, datas[..i]), datas[i]);
    }
  }

  /** Between resets the list is the ordered insertion of all messages since the first. */
  lemma {:induction false} ListBetweenResets(s: Session, datas: seq<string>)
    requires s.messages == [] && Undisturbed(s, datas)
    ensures forall i :: 0 <= i < |datas| ==> ParseMessage(datas[i]).Some?
    ensures HandleAll(s, datas).messages == InsertAll(Parsed(datas))
    decreases |datas|
  {
    hide ParseMessage, LastBefore, Insert, ActionOf, Get;
    assert forall i :: 0 <= i < |datas| ==> !Resets(HandleAll(s, datas[..i]), datas[i]);
    if datas != [] {
      var n := |datas| - 1;
      UndisturbedPrefix(s, datas);
      ListBetweenResets(s, datas[..n]);
      assert Parsed(datas)[..n] == Parsed(datas[..n]);
    }
  }

  lemma InsertIntoNothing(msg: JsMessage)
    ensures Insert([], msg) == [msg]
  {
    hide LastBefore, Before;
  }

  lemma InsertedStays(messages: seq<JsMessage>, msg: JsMessage)
    ensures Insert(messages, msg) != []
  {
    hide LastBefore;
  }

  /**
    Exactly when the list is empty after a message: when the message could not be parsed, or its
    action is none of the four. After an error, or the own disconnect, it is not, although the
    session was reset: the message that reset it is then the only one in the list.
   */
  lemma EmptyAfterIff(s: Session, data: string)
    ensures HandleMessage(s, data).messages == [] <==>
      ParseMessage(data).None? || ActionOf(ParseMessage(data).value).None?
    ensures Resets(s, data) && HandleMessage(s, data).messages != [] ==>
      HandleMessage(s, data).messages == [ParseMessage(data).value]
  {
    hide ParseMessage, Insert, ActionOf, Get;
    match ParseMessage(data)
    case None =>
    case Some(msg) =>
      InsertIntoNothing(msg);
      InsertedStays(s.messages, msg);
  }

  /**
    What is left of the session after a message that resets it: no socket and no uuid; the open
    flag is cleared if there was a socket and is otherwise as before; and the list is empty if the
    message could not be parsed or has no known action, and holds just the message if that was an
    error or the own disconnect.
   */
  lemma ResetLeaves(s: Session, data: string)
    requires Resets(s, data)
    ensures var s' := HandleMessage(s, data);
      && s'.uuid == Some("") && !s'.hasWs
      && s'.isOpen == (if s.hasWs then false else s.isOpen)
      && match ParseMessage(data)
         case None => s'.messages == []
         case Some(msg) =>
           if Get(msg, "action") == Some("error") then s'.messages == [msg]
           else if Get(msg, "action") == Some("disconnect") then
             Get(msg, "contents") == s.uuid && s'.messages == [msg]
           else
             Get(msg, "action") != Some("connect") && Get(msg, "action") != Some("chat") && s'.messages == []
  {
    hide ParseMessage, Insert, Get;
    match ParseMessage(data)
    case None =>
    case Some(msg) =>
      InsertIntoNothing(msg);
      KnownActions(Get(msg, "action"));
  }

  lemma KnownActions(name: Option<string>)
    ensures name.Some? ==> (ActionFromName(name.value) == Some(Connect) <==> name.value == "connect")
    ensures name.Some? ==> (ActionFromName(name.value) == Some(Chat) <==> name.value == "chat")
    ensures name.Some? ==> (ActionFromName(name.value) == Some(Disconnect) <==> name.value == "disconnect")
    ensures name.Some? ==> (ActionFromName(name.value) == Some(Error) <==> name.value == "error")
  {
    if name.Some? {
      ActionCodec(name.value, Connect);
      ActionCodec(name.value, Chat);
      ActionCodec(name.value, Disconnect);
      ActionCodec(name.value, Error);
    }
  }

  /**
    What any other message does: it is a connect, a chat, or the disconnect of somebody else; it is
    inserted into the list; and the first connect, and nothing else, assigns the uuid.
   */
  lemma KeepsSession(s: Session, data: string)
    requires !Resets(s, data)
    ensures ParseMessage(data).Some?
    ensures var s', msg := HandleMessage(s, data), ParseMessage(data).value;
      && (|| Get(msg, "action") == Some("connect") || Get(msg, "action") == Some("chat")
          || (Get(msg, "action") == Some("disconnect") && Get(msg, "contents") != s.uuid))
      && (var first := Get(msg, "action") == Some("connect") && s.uuid == Some("");
          s'.uuid == if first then Get(msg, "contents") else s.uuid)
      && s'.hasWs == s.hasWs && s'.isOpen == s.isOpen
      && s'.messages == Insert(s.messages, msg)
  {
    hide ParseMessage, Insert, Get;
    KnownActions(Get(ParseMessage(data).value, "action"));
    assert "connect" != "chat" && |"disconnect"| == 10;
  }

  /** Once assigned, the client's uuid stays until a reset, whatever connect messages follow. */
  lemma UuidStays(s: Session, data: string)
    requires s.uuid != Some("") && !Resets(s, data)
    ensures HandleMessage(s, data).uuid == s.uuid
  {
    hide ParseMessage, Insert, ActionOf;
  }
}
