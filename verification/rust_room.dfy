/**
  The actor chat room of the Rust server (wschat-rust/src/main.rs): any number of `Conn`
  actors and one `Server` actor that talk over FIFO mailboxes. Every push to a mailbox and
  every handled message is one step.

  The main result is totally ordered broadcast: what is pushed to each client is an exact
  contiguous window of one global log.
 */
module RustRoom {
  import opened Options

  type ConnId = nat
  type Uuid = string

  // A broadcast, as the server serializes it; `ts` is the timestamp it carries.
  datatype Entry =
    | Connected(uuid: Uuid, ts: nat)
    | Said(uuid: Uuid, contents: string, ts: nat)
    | Gone(uuid: Uuid, ts: nat)

  // A message in the server's mailbox.
  datatype Mail =
    | Connect(uuid: Uuid, recip: ConnId)
    | Chat(uuid: Uuid, contents: string, ts: nat)
    | Disconnect(uuid: Uuid)

  // What arrives on the websocket stream. `Text(None)` is text that is not a message object.
  datatype Frame =
    | Ping | Pong | Text(contents: Option<string>) | Binary | CloseFrame | Continuation | Nop
    | ProtocolError | EndOfStream

  // What a Conn writes to its own websocket; `ts` is the timestamp of the error message.
  datatype Out = Room(entry: Entry) | BadMessage(ts: nat) | PongReply | CloseReply

  // A Conn is Created before its `started` hook ran, Stopping from ctx.stop() until its
  // `stopping` hook ran.
  datatype Phase = Created | Running | Stopping | Stopped

  datatype Conn = Conn(uuid: Uuid, phase: Phase, out: seq<Out>)

  // ---------------------------------------------------------------- the server actor

  // The client table and the mailboxes of the recipients it may hold.
  datatype Hub = Hub(clients: map<Uuid, ConnId>, mailboxes: map<ConnId, seq<Entry>>)

  // The entries of the client table that hold the address of `c`.
  ghost function Subscriptions(clients: map<Uuid, ConnId>, c: ConnId): set<Uuid> {
    set u | u in clients && clients[u] == c
  }

  function Copies<T>(x: T, n: nat): seq<T> {
    seq(n, _ => x)
  }

  // A message pushed to the recipients of all the given table entries, once for each.
  ghost function PushAll(boxes: map<ConnId, seq<Entry>>, clients: map<Uuid, ConnId>, e: Entry): map<ConnId,
    seq<Entry>> {
    map c | c in boxes :: boxes[c] + Copies(e, |Subscriptions(clients, c)|)
  }

  ghost function PushOne(boxes: map<ConnId, seq<Entry>>, c: ConnId, e: Entry): map<ConnId, seq<Entry>> {
    if c in boxes then boxes[c := boxes[c] + [e]] else boxes
  }

  ghost function Broadcast(h: Hub, e: Entry): Hub {
    h.(mailboxes := PushAll(h.mailboxes, h.clients, e))
  }

  ghost function AddClient(h: Hub, u: Uuid, recip: ConnId, e: Entry): Hub {
    Hub(h.clients[u := recip], PushOne(Broadcast(h, e).mailboxes, recip, e))
  }

  ghost function RemoveClient(h: Hub, u: Uuid, e: Entry): Hub {
    Hub(h.clients - {u}, Broadcast(h, e).mailboxes)
  }

  /** The server actor, updating its client table and its recipients' mailboxes in place. */
  class Server {
    var clients: map<Uuid, ConnId>
    var mailboxes: map<ConnId, seq<Entry>>

    function View(): Hub
      reads this
    {
      Hub(clients, mailboxes)
    }

    constructor (mailboxes: map<ConnId, seq<Entry>>)
      ensures View() == Hub(map[], mailboxes)
    {
      clients, this.mailboxes := map[], mailboxes;
    }

    method DoSend(c: ConnId, e: Entry)
      modifies this`mailboxes
      ensures mailboxes == PushOne(old(mailboxes), c, e)
    {
      if c in mailboxes {
        mailboxes := mailboxes[c := mailboxes[c] + [e]];
      }
    }

    // The loop over the table's values, which come in no particular order.
    method BroadcastMsgText(e: Entry)
      modifies this`mailboxes
      ensures View() == Broadcast(old(View()), e)
    {
      hide PushAll, PushOne, Copies, Subscriptions;
      var rest := clients;
      ghost var sent: map<Uuid, ConnId> := map[];
      NoSubscriptions(mailboxes, e);
      while rest != map[]
        invariant forall u :: u in clients <==> u in rest || u in sent
        invariant forall u :: u in sent ==> u !in rest && u in clients && sent[u] == clients[u]
        invariant forall u :: u in rest ==> u in clients && rest[u] == clients[u]
        invariant mailboxes == PushAll(old(mailboxes), sent, e)
        decreases |rest.Keys|
      {
        assert rest.Keys != {} by {
          var u :| u in rest;
        }
        var u :| u in rest;
        PushAllGrows(old(mailboxes), sent, u, rest[u], e);
        DoSend(rest[u], e);
        sent := sent[u := rest[u]];
        assert (rest - {u}).Keys == rest.Keys - {u};
        rest := rest - {u};
      }
      assert sent == clients;
    }

    method HandleMessage(e: Entry)
      modifies this`mailboxes
      ensures View() == Broadcast(old(View()), e)
    {
      BroadcastMsgText(e);
    }

    method HandleConnect(u: Uuid, recip: ConnId, e: Entry)
      modifies this
      ensures View() == AddClient(old(View()), u, recip, e)
    {
      BroadcastMsgText(e);
      DoSend(recip, e);
      clients := clients[u := recip];
    }

    method HandleDisconnect(u: Uuid, e: Entry)
      modifies this
      ensures View() == RemoveClient(old(View()), u, e)
    {
      BroadcastMsgText(e);
      clients := clients - {u};
    }
  }

  lemma NoSubscriptions(boxes: map<ConnId, seq<Entry>>, e: Entry)
    ensures PushAll(boxes, map[], e) == boxes
  {
    forall c | c in boxes
      ensures PushAll(boxes, map[], e)[c] == boxes[c]
    {
      assert Subscriptions(map[], c) == {};
    }
  }

  // One more table entry means one more copy, for its recipient only.
  lemma PushAllGrows(boxes: map<ConnId, seq<Entry>>, sent: map<Uuid, ConnId>, u: Uuid, c: ConnId, e: Entry)
    requires u !in sent
    ensures PushAll(boxes, sent[u := c], e) == PushOne(PushAll(boxes, sent, e), c, e)
  {
    hide Subscriptions, Copies;
    var l, r := PushAll(boxes, sent[u := c], e), PushOne(PushAll(boxes, sent, e), c, e);
    forall d | d in boxes
      ensures l[d] == r[d]
    {
      CopiesGrow(sent, u, c, d, e);
    }
  }

  lemma CopiesGrow(sent: map<Uuid, ConnId>, u: Uuid, c: ConnId, d: ConnId, e: Entry)
    requires u !in sent
    ensures Copies(e, |Subscriptions(sent[u := c], d)|)
      == Copies(e, |Subscriptions(sent, d)|) + (if d == c then [e] else [])
  {
    if d == c {
      assert Subscriptions(sent[u := c], d) == Subscriptions(sent, d) + {u};
    } else {
      assert Subscriptions(sent[u := c], d) == Subscriptions(sent, d);
    }
  }

  // ---------------------------------------------------------------- the whole system

  // `log` records the broadcasts in the order the server made them.
  datatype State = State(conns: map<ConnId, Conn>, mailbox: seq<Mail>, hub: Hub, log: seq<Entry>)

  datatype Choice =
    | New(c: ConnId, uuid: Uuid)
    | Start(c: ConnId)
    | Receive(c: ConnId, frame: Frame, now: nat)
    | Stop(c: ConnId)
    | Deliver(c: ConnId)
    | Serve(now: nat)

  function Init(): State {
    State(map[], [], Hub(map[], map[]), [])
  }

  predicate FreshUuid(s: State, u: Uuid) {
    forall c :: c in s.conns ==> s.conns[c].uuid != u
  }

  function SetConn(s: State, c: ConnId, k: Conn): State {
    s.(conns := s.conns[c := k])
  }

  // The stream handler of a running Conn.
  function HandleFrame(s: State, c: ConnId, frame: Frame, now: nat): State
    requires c in s.conns
  {
    var k := s.conns[c];
    match frame
    case Ping => SetConn(s, c, k.(out := k.out + [PongReply]))
    case Pong => s
    case Text(Some(contents)) => s.(mailbox := s.mailbox + [Chat(k.uuid, contents, now)])
    case Text(None) => SetConn(s, c, k.(out := k.out + [BadMessage(now)]))
    case Binary => s
    case CloseFrame => SetConn(s, c, k.(phase := Stopping, out := k.out + [CloseReply]))
    case Continuation => SetConn(s, c, k.(phase := Stopping))
    case Nop => s
    case ProtocolError => SetConn(s, c, k.(phase := Stopping))
    case EndOfStream => SetConn(s, c, k.(phase := Stopping))
  }

  // The entry the server broadcasts for a message of its mailbox.
  function EntryFor(m: Mail, now: nat): Entry {
    match m
    case Connect(u, _) => Connected(u, now)
    case Chat(u, contents, ts) => Said(u, contents, ts)
    case Disconnect(u) => Gone(u, now)
  }

  ghost function HandleMail(h: Hub, m: Mail, now: nat): Hub {
    var e := EntryFor(m, now);
    match m
    case Connect(u, recip) => AddClient(h, u, recip, e)
    case Chat(_, _, _) => Broadcast(h, e)
    case Disconnect(u) => RemoveClient(h, u, e)
  }

  ghost function Step(s: State, ch: Choice): Option<State> {
    match ch
    case New(c, u) =>
      if c in s.conns || !FreshUuid(s, u) then None
      else Some(s.(conns := s.conns[c := Conn(u, Created, [])],
                   hub := s.hub.(mailboxes := s.hub.mailboxes[c := []])))
    case Start(c) =>
      if c in s.conns && s.conns[c].phase.Created?
      then Some(SetConn(s, c, s.conns[c].(phase := Running)).(mailbox := s.mailbox + [Connect(s.conns[c].uuid, c)]))
      else None
    case Receive(c, frame, now) =>
      if c in s.conns && s.conns[c].phase.Running? then Some(HandleFrame(s, c, frame, now)) else None
    case Stop(c) =>
      if c in s.conns && s.conns[c].phase.Stopping?
      then Some(SetConn(s, c, s.conns[c].(phase := Stopped)).(mailbox := s.mailbox + [Disconnect(s.conns[c].uuid)]))
      else None
    case Deliver(c) =>
      if c in s.conns && c in s.hub.mailboxes && s.hub.mailboxes[c] != []
        && (s.conns[c].phase.Running? || s.conns[c].phase.Stopping?)
      then
        var k := s.conns[c];
        var box := s.hub.mailboxes[c];
        var s' := SetConn(s, c, k.(out := k.out + [Room(box[0])]));
        Some(s'.(hub := s.hub.(mailboxes := s.hub.mailboxes[c := box[1..]])))
      else None
    case Serve(now) =>
      if s.mailbox == [] then None
      else Some(s.(mailbox := s.mailbox[1..], hub := HandleMail(s.hub, s.mailbox[0], now),
                   log := s.log + [EntryFor(s.mailbox[0], now)]))
  }

  ghost function Exec(s: State, cs: seq<Choice>): Option<State>
    decreases |cs|
  {
    if cs == [] then Some(s)
    else match Step(s, cs[0])
      case None => None
      case Some(s') => Exec(s', cs[1..])
  }

  // ---------------------------------------------------------------- histories

  datatype Kind = Join | Talk | Leave
  datatype Event = Event(uuid: Uuid, kind: Kind)

  function EntryEvent(e: Entry): Event {
    match e
    case Connected(u, _) => Event(u, Join)
    case Said(u, _, _) => Event(u, Talk)
    case Gone(u, _) => Event(u, Leave)
  }

  function MailEvent(m: Mail): Event {
    EntryEvent(EntryFor(m, 0))
  }

  function LogEvents(log: seq<Entry>): (r: seq<Event>)
    ensures |r| == |log|
  {
    seq(|log|, i requires 0 <= i < |log| => EntryEvent(log[i]))
  }

  function MailEvents(mailbox: seq<Mail>): (r: seq<Event>)
    ensures |r| == |mailbox|
  {
    seq(|mailbox|, i requires 0 <= i < |mailbox| => MailEvent(mailbox[i]))
  }

  // Everything logged, followed by everything that waits to be logged.
  function History(s: State): seq<Event> {
    LogEvents(s.log) + MailEvents(s.mailbox)
  }

  // Every uuid joins before anything else, once, and does nothing after it left.
  ghost predicate Lifecycles(h: seq<Event>) {
    && (forall i, j :: 0 <= i < j < |h| && h[i].uuid == h[j].uuid ==> !h[j].kind.Join? && !h[i].kind.Leave?)
    && (forall j :: 0 <= j < |h| && !h[j].kind.Join? ==> Event(h[j].uuid, Join) in Seen(h[..j]))
  }

  ghost function Seen(h: seq<Event>): set<Event> {
    set e | e in h
  }

  ghost predicate Unknown(seen: set<Event>, u: Uuid) {
    forall e :: e in seen ==> e.uuid != u
  }

  ghost predicate Active(seen: set<Event>, u: Uuid) {
    Event(u, Join) in seen && Event(u, Leave) !in seen
  }

  // The event may come next.
  ghost predicate InOrder(seen: set<Event>, e: Event) {
    if e.kind.Join? then Unknown(seen, e.uuid) else Active(seen, e.uuid)
  }

  lemma LifecyclesExtend(h: seq<Event>, e: Event)
    requires Lifecycles(h) && InOrder(Seen(h), e)
    ensures Lifecycles(h + [e])
    ensures Seen(h + [e]) == Seen(h) + {e}
  {
    var h' := h + [e];
    forall j | 0 <= j < |h'| && !h'[j].kind.Join?
      ensures Event(h'[j].uuid, Join) in Seen(h'[..j])
    {
      if j < |h| {
        assert h'[..j] == h[..j];
      } else {
        assert h'[..j] == h;
      }
    }
    assert forall i :: 0 <= i < |h| ==> h[i] in Seen(h);
    assert forall i :: 0 <= i < |h| && h[i].kind.Leave? ==> h[i] == Event(h[i].uuid, Leave);
  }

  lemma SeenExtends(h: seq<Event>, e: Event)
    ensures Seen(h + [e]) == Seen(h) + {e}
  {
  }

  // In a history that keeps the lifecycles every event was in order when it happened.
  lemma LifecyclesOrder(h: seq<Event>, n: nat)
    requires Lifecycles(h) && n < |h|
    ensures InOrder(Seen(h[..n]), h[n])
  {
    forall e | e in Seen(h[..n])
      ensures exists i :: 0 <= i < n && h[i] == e
    {
      assert e in h[..n];
      var i :| 0 <= i < n && h[..n][i] == e;
    }
  }

  // ---------------------------------------------------------------- windows of the log

  // The first position of such an event in the log; the length of the log when there is none.
  function First(log: seq<Entry>, ev: Event): (i: nat)
    ensures i <= |log|
    ensures forall j :: 0 <= j < i ==> EntryEvent(log[j]) != ev
    ensures i < |log| ==> EntryEvent(log[i]) == ev
  {
    if log == [] then 0
    else if EntryEvent(log[0]) == ev then 0
    else 1 + First(log[1..], ev)
  }

  // The position of the own connect.
  function Lo(log: seq<Entry>, u: Uuid): (i: nat)
    ensures i <= |log|
  {
    First(log, Event(u, Join))
  }

  // The position after the own disconnect, or the end of the log before that.
  function Hi(log: seq<Entry>, u: Uuid): (i: nat)
    ensures i <= |log|
  {
    var leave := First(log, Event(u, Leave));
    if leave < |log| then leave + 1 else |log|
  }

  // From the own connect, up to and including the own disconnect or up to now.
  function Window(log: seq<Entry>, u: Uuid): seq<Entry> {
    if Lo(log, u) <= Hi(log, u) then log[Lo(log, u)..Hi(log, u)] else []
  }

  lemma FirstExtends(log: seq<Entry>, e: Entry, ev: Event)
    ensures First(log + [e], ev) ==
      if First(log, ev) < |log| || EntryEvent(e) == ev then First(log, ev) else |log| + 1
  {
    assert forall j :: 0 <= j < |log| ==> (log + [e])[j] == log[j];
    assert (log + [e])[|log|] == e;
  }

  lemma FirstIsMembership(log: seq<Entry>, ev: Event)
    ensures ev in Seen(LogEvents(log)) <==> First(log, ev) < |log|
  {
    var i := First(log, ev);
    if i < |log| {
      assert LogEvents(log)[i] == ev;
    }
  }

  // How one more broadcast changes the bounds of a uuid's window.
  lemma BoundsExtend(log: seq<Entry>, e: Entry, u: Uuid)
    requires InOrder(Seen(LogEvents(log)), EntryEvent(e))
    requires Event(u, Leave) in Seen(LogEvents(log)) ==> Event(u, Join) in Seen(LogEvents(log))
    ensures var lo, hi, lo', hi' := Lo(log, u), Hi(log, u), Lo(log + [e], u), Hi(log + [e], u);
      if Active(Seen(LogEvents(log)), u) then lo' == lo && hi == |log| && hi' == |log| + 1
      else if EntryEvent(e) == Event(u, Join) then lo == lo' == hi == |log| && hi' == |log| + 1
      else if Event(u, Join) in Seen(LogEvents(log)) then lo' == lo && hi' == hi
      else lo == hi == |log| && lo' == hi' == |log| + 1
  {
    FirstExtends(log, e, Event(u, Join));
    FirstExtends(log, e, Event(u, Leave));
    FirstIsMembership(log, Event(u, Join));
    FirstIsMembership(log, Event(u, Leave));
    hide Seen, LogEvents, First;
  }

  lemma SliceExtends<T>(s: seq<T>, x: T, lo: nat, hi: nat)
    requires lo <= |s| && hi <= |s|
    ensures (s + [x])[lo..|s| + 1] == s[lo..|s|] + [x]
    ensures (s + [x])[|s|..|s| + 1] == [x]
    ensures lo <= hi ==> (s + [x])[lo..hi] == s[lo..hi]
  {
  }

  // How one more broadcast changes the window of a uuid.
  lemma WindowExtends(log: seq<Entry>, e: Entry, u: Uuid)
    requires InOrder(Seen(LogEvents(log)), EntryEvent(e))
    requires Event(u, Leave) in Seen(LogEvents(log)) ==> Event(u, Join) in Seen(LogEvents(log))
    ensures Window(log + [e], u) ==
      if Active(Seen(LogEvents(log)), u) then Window(log, u) + [e]
      else if EntryEvent(e) == Event(u, Join) then [e]
      else Window(log, u)
    ensures EntryEvent(e) == Event(u, Join) ==> Window(log, u) == []
  {
    hide Seen, LogEvents, Lo, Hi;
    BoundsExtend(log, e, u);
    SliceExtends(log, e, Lo(log, u), Hi(log, u));
  }

  // ---------------------------------------------------------------- the invariant

  function RoomTexts(out: seq<Out>): seq<Entry> {
    if out == [] then []
    else RoomTexts(out[..|out| - 1]) + (if out[|out| - 1].Room? then [out[|out| - 1].entry] else [])
  }

  // Everything pushed to a Conn: what it forwarded to its websocket and what it still holds.
  function Pushed(k: Conn, box: seq<Entry>): seq<Entry> {
    RoomTexts(k.out) + box
  }

  ghost predicate AddressInv(conns: map<ConnId, Conn>, mailbox: seq<Mail>, hub: Hub) {
    && conns.Keys == hub.mailboxes.Keys
    && (forall c, d :: c in conns && d in conns && conns[c].uuid == conns[d].uuid ==> c == d)
    && (forall m :: m in mailbox && m.Connect? ==> m.recip in conns && conns[m.recip].uuid == m.uuid)
    && (forall u :: u in hub.clients ==> hub.clients[u] in conns && conns[hub.clients[u]].uuid == u)
  }

  // A Conn's phase says how far its user's history has come.
  ghost predicate PhaseOk(seen: set<Event>, k: Conn) {
    match k.phase
    case Created => Unknown(seen, k.uuid)
    case Running => Active(seen, k.uuid)
    case Stopping => Active(seen, k.uuid)
    case Stopped => Event(k.uuid, Leave) in seen
  }

  ghost predicate PhaseInv(seen: set<Event>, conns: map<ConnId, Conn>) {
    && (forall c :: c in conns ==> PhaseOk(seen, conns[c]))
    && (forall e :: e in seen ==> HasConn(conns, e.uuid))
  }

  ghost predicate HasConn(conns: map<ConnId, Conn>, u: Uuid) {
    exists c :: c in conns && conns[c].uuid == u
  }

  ghost predicate ClientsInv(clients: map<Uuid, ConnId>, logged: set<Event>) {
    forall u :: u in clients <==> Active(logged, u)
  }

  ghost predicate WindowInv(conns: map<ConnId, Conn>, boxes: map<ConnId, seq<Entry>>, log: seq<Entry>) {
    forall c :: c in conns && c in boxes ==> Pushed(conns[c], boxes[c]) == Window(log, conns[c].uuid)
  }

  ghost predicate Inv(s: State) {
    && AddressInv(s.conns, s.mailbox, s.hub)
    && Lifecycles(History(s))
    && PhaseInv(Seen(History(s)), s.conns)
    && ClientsInv(s.hub.clients, Seen(LogEvents(s.log)))
    && WindowInv(s.conns, s.hub.mailboxes, s.log)
  }

  lemma InitInv()
    ensures Inv(Init())
  {
  }

  // ---------------------------------------------------------------- the steps of the Conn actors

  // One more message in the server's mailbox.
  lemma MailExtends(s: State, m: Mail, s': State)
    requires s'.log == s.log && s'.mailbox == s.mailbox + [m]
    ensures History(s') == History(s) + [MailEvent(m)]
  {
  }

  lemma NewInv(s: State, c: ConnId, u: Uuid)
    requires Inv(s) && Step(s, New(c, u)).Some?
    ensures Inv(Step(s, New(c, u)).value)
  {
    hide Lifecycles, Seen, First, LogEvents, MailEvents, Window, Active, HasConn;
    var s' := Step(s, New(c, u)).value;
    assert s'.conns == s.conns[c := Conn(u, Created, [])] && s'.mailbox == s.mailbox && s'.log == s.log;
    assert History(s') == History(s);
    forall e | e in Seen(History(s))
      ensures e.uuid != u
      ensures HasConn(s'.conns, e.uuid)
    {
      var d := Owner(s.conns, e.uuid);
      OwnerStays(s.conns, s'.conns, d);
    }
    NeverJoined(s, u);
    assert Pushed(s'.conns[c], s'.hub.mailboxes[c]) == [];
    assert PhaseInv(Seen(History(s')), s'.conns);
    assert AddressInv(s'.conns, s'.mailbox, s'.hub);
  }

  lemma Owner(conns: map<ConnId, Conn>, u: Uuid) returns (c: ConnId)
    requires HasConn(conns, u)
    ensures c in conns && conns[c].uuid == u
  {
    c :| c in conns && conns[c].uuid == u;
  }

  lemma OwnerStays(conns: map<ConnId, Conn>, conns': map<ConnId, Conn>, c: ConnId)
    requires c in conns && c in conns' && conns'[c].uuid == conns[c].uuid
    ensures HasConn(conns', conns[c].uuid)
  {
  }

  lemma NeverJoined(s: State, u: Uuid)
    requires Unknown(Seen(History(s)), u)
    ensures Window(s.log, u) == []
  {
    assert forall i :: 0 <= i < |s.log| ==> History(s)[i] in Seen(History(s));
    FirstIsMembership(s.log, Event(u, Join));
  }

  // A Conn moves to its next phase and tells the server.
  lemma PhaseStep(seen: set<Event>, conns: map<ConnId, Conn>, c: ConnId, k: Conn, e: Event)
    requires PhaseInv(seen, conns) && c in conns && k.uuid == conns[c].uuid == e.uuid
    requires forall d :: d in conns && conns[d].uuid == k.uuid ==> c == d
    requires PhaseOk(seen + {e}, k)
    ensures PhaseInv(seen + {e}, conns[c := k])
  {
    hide HasConn;
    forall d | d in conns && d != c
      ensures PhaseOk(seen + {e}, conns[d])
    {
      assert PhaseOk(seen, conns[d]);
    }
    forall x | x in seen + {e}
      ensures HasConn(conns[c := k], x.uuid)
    {
      var d := c;
      if x.uuid != e.uuid {
        d := Owner(conns, x.uuid);
      }
      OwnerStays(conns[c := k], conns[c := k], d);
    }
  }

  // A Conn in some phase sends the server a message, and may move to another phase.
  lemma TellServer(s: State, c: ConnId, phase: Phase, m: Mail)
    requires Inv(s) && c in s.conns
    requires m.uuid == s.conns[c].uuid && (m.Connect? ==> m.recip == c)
    requires InOrder(Seen(History(s)), MailEvent(m))
    requires PhaseOk(Seen(History(s)) + {MailEvent(m)}, s.conns[c].(phase := phase))
    ensures Inv(SetConn(s, c, s.conns[c].(phase := phase)).(mailbox := s.mailbox + [m]))
  {
    hide Lifecycles, Seen, LogEvents, MailEvents, Window, InOrder, HasConn, History, RoomTexts;
    var k := s.conns[c].(phase := phase);
    var s' := SetConn(s, c, k).(mailbox := s.mailbox + [m]);
    MailExtends(s, m, s');
    LifecyclesExtend(History(s), MailEvent(m));
    PhaseStep(Seen(History(s)), s.conns, c, k, MailEvent(m));
  }

  // A Conn changes in a way the rest of the room does not see.
  lemma PrivateStep(s: State, c: ConnId, k: Conn, box: seq<Entry>)
    requires Inv(s) && c in s.conns && k.uuid == s.conns[c].uuid
    requires PhaseOk(Seen(History(s)), k)
    requires Pushed(k, box) == Pushed(s.conns[c], s.hub.mailboxes[c])
    ensures Inv(SetConn(s, c, k).(hub := s.hub.(mailboxes := s.hub.mailboxes[c := box])))
  {
    hide Lifecycles, Seen, Window, PhaseOk, HasConn, RoomTexts, ClientsInv, LogEvents, MailEvents;
    var s' := SetConn(s, c, k).(hub := s.hub.(mailboxes := s.hub.mailboxes[c := box]));
    assert History(s') == History(s);
    forall e | e in Seen(History(s))
      ensures HasConn(s'.conns, e.uuid)
    {
      var d := Owner(s.conns, e.uuid);
      OwnerStays(s.conns, s'.conns, d);
    }
  }

  // Other than a chat, a frame only changes the Conn that receives it.
  lemma FrameIsPrivate(s: State, c: ConnId, frame: Frame, now: nat) returns (k: Conn)
    requires c in s.conns && s.conns[c].phase.Running? && !(frame.Text? && frame.contents.Some?)
    ensures HandleFrame(s, c, frame, now) == SetConn(s, c, k)
    ensures k.uuid == s.conns[c].uuid && (k.phase.Running? || k.phase.Stopping?)
    ensures RoomTexts(k.out) == RoomTexts(s.conns[c].out)
  {
    k := HandleFrame(s, c, frame, now).conns[c];
    assert k.out == s.conns[c].out || k.out[..|s.conns[c].out|] == s.conns[c].out;
    assert s.conns[c := s.conns[c]] == s.conns;
  }

  lemma ReceiveInv(s: State, c: ConnId, frame: Frame, now: nat)
    requires Inv(s) && c in s.conns && s.conns[c].phase.Running?
    ensures Inv(HandleFrame(s, c, frame, now))
  {
    hide Lifecycles, Seen, Window, HasConn, History, ClientsInv, RoomTexts;
    if frame.Text? && frame.contents.Some? {
      TellServer(s, c, Running, Chat(s.conns[c].uuid, frame.contents.value, now));
      assert s.conns[c := s.conns[c]] == s.conns;
    } else {
      hide HandleFrame;
      var k := FrameIsPrivate(s, c, frame, now);
      PrivateStep(s, c, k, s.hub.mailboxes[c]);
      assert s.hub.mailboxes[c := s.hub.mailboxes[c]] == s.hub.mailboxes;
    }
  }

  lemma DeliverInv(s: State, c: ConnId)
    requires Inv(s) && Step(s, Deliver(c)).Some?
    ensures Inv(Step(s, Deliver(c)).value)
  {
    hide Lifecycles, Seen, Window, HasConn, History, ClientsInv;
    var k, box := s.conns[c], s.hub.mailboxes[c];
    var k' := k.(out := k.out + [Room(box[0])]);
    assert k'.out[..|k.out|] == k.out;
    assert RoomTexts(k.out) + box == RoomTexts(k.out) + [box[0]] + box[1..];
    PrivateStep(s, c, k', box[1..]);
  }

  // ---------------------------------------------------------------- the steps of the Server actor

  lemma MailMoves(s: State, now: nat, s': State)
    requires s.mailbox != [] && s'.mailbox == s.mailbox[1..] && s'.log == s.log + [EntryFor(s.mailbox[0], now)]
    ensures History(s') == History(s)
    ensures LogEvents(s'.log) == LogEvents(s.log) + [MailEvent(s.mailbox[0])]
    ensures LogEvents(s.log) == History(s)[..|s.log|]
    ensures History(s)[|s.log|] == MailEvent(s.mailbox[0])
    ensures LogEvents(s'.log) == History(s)[..|s.log| + 1]
  {
    assert LogEvents(s'.log) == LogEvents(s.log) + [MailEvent(s.mailbox[0])];
    assert MailEvents(s.mailbox) == [MailEvent(s.mailbox[0])] + MailEvents(s'.mailbox);
  }

  // The recipients a broadcast reaches: the clients in the table, once each.
  lemma OneSubscription(s: State, c: ConnId)
    requires AddressInv(s.conns, s.mailbox, s.hub) && c in s.conns
    ensures Subscriptions(s.hub.clients, c) == if s.conns[c].uuid in s.hub.clients then {s.conns[c].uuid} else {}
  {
  }

  lemma LeaveAfterJoin(h: seq<Event>, n: nat, u: Uuid)
    requires Lifecycles(h) && n <= |h| && Event(u, Leave) in Seen(h[..n])
    ensures Event(u, Join) in Seen(h[..n])
  {
    var j :| 0 <= j < n && h[..n][j] == Event(u, Leave);
    assert h[j] == Event(u, Leave);
    assert h[..n][..j] == h[..j];
  }

  // What a broadcast pushes to one recipient.
  lemma ServedBox(s: State, now: nat, c: ConnId)
    requires AddressInv(s.conns, s.mailbox, s.hub) && s.mailbox != [] && c in s.conns
    ensures var m, e := s.mailbox[0], EntryFor(s.mailbox[0], now);
      && c in HandleMail(s.hub, m, now).mailboxes
      && HandleMail(s.hub, m, now).mailboxes[c] ==
           s.hub.mailboxes[c]
           + (if s.conns[c].uuid in s.hub.clients then [e] else [])
           + (if m.Connect? && m.uuid == s.conns[c].uuid then [e] else [])
  {
    var m, e := s.mailbox[0], EntryFor(s.mailbox[0], now);
    OneSubscription(s, c);
    assert Copies(e, 1) == [e];
    assert PushAll(s.hub.mailboxes, s.hub.clients, e)[c] ==
      s.hub.mailboxes[c] + (if s.conns[c].uuid in s.hub.clients then [e] else []);
  }

  lemma ServeWindow(s: State, now: nat, c: ConnId)
    requires Inv(s) && s.mailbox != [] && c in s.conns
    ensures c in HandleMail(s.hub, s.mailbox[0], now).mailboxes
    ensures Pushed(s.conns[c], HandleMail(s.hub, s.mailbox[0], now).mailboxes[c])
         == Window(s.log + [EntryFor(s.mailbox[0], now)], s.conns[c].uuid)
  {
    hide Lifecycles, Seen, Window, HasConn, LogEvents, First, PushAll, PushOne, RoomTexts;
    var s' := Step(s, Serve(now)).value;
    var u, e := s.conns[c].uuid, EntryFor(s.mailbox[0], now);
    MailMoves(s, now, s');
    LifecyclesOrder(History(s), |s.log|);
    ServedBox(s, now, c);
    if Event(u, Leave) in Seen(LogEvents(s.log)) {
      LeaveAfterJoin(History(s), |s.log|, u);
    }
    WindowExtends(s.log, e, u);
    assert Pushed(s.conns[c], s.hub.mailboxes[c]) == Window(s.log, u);
  }

  lemma ServeClients(s: State, now: nat)
    requires Inv(s) && s.mailbox != []
    ensures ClientsInv(HandleMail(s.hub, s.mailbox[0], now).clients,
                       Seen(LogEvents(s.log + [EntryFor(s.mailbox[0], now)])))
  {
    hide Lifecycles, Window, HasConn, LogEvents, First, PushAll, PushOne, RoomTexts, Seen;
    MailMoves(s, now, Step(s, Serve(now)).value);
    LifecyclesOrder(History(s), |s.log|);
    SeenExtends(LogEvents(s.log), MailEvent(s.mailbox[0]));
  }

  lemma ServeInv(s: State, now: nat)
    requires Inv(s) && s.mailbox != []
    ensures Inv(Step(s, Serve(now)).value)
  {
    hide Lifecycles, Seen, Window, HasConn, LogEvents, First, RoomTexts, Active, MailEvents, PushAll, PushOne;
    var s' := Step(s, Serve(now)).value;
    MailMoves(s, now, s');
    ServeClients(s, now);
    forall c | c in s.conns
      ensures c in s'.hub.mailboxes
      ensures Pushed(s.conns[c], s'.hub.mailboxes[c]) == Window(s'.log, s.conns[c].uuid)
    {
      ServedBox(s, now, c);
      ServeWindow(s, now, c);
    }
    ServedKeys(s.hub, s.mailbox[0], now);
    assert AddressInv(s'.conns, s'.mailbox, s'.hub);
  }

  lemma ServedKeys(h: Hub, m: Mail, now: nat)
    ensures HandleMail(h, m, now).mailboxes.Keys == h.mailboxes.Keys
  {
  }

  lemma StepInv(s: State, ch: Choice)
    requires Inv(s) && Step(s, ch).Some?
    ensures Inv(Step(s, ch).value)
  {
    hide Lifecycles, Seen, Window, HasConn, History, ClientsInv, HandleMail, HandleFrame, WindowInv;
    match ch
    case New(c, u) => NewInv(s, c, u);
    case Start(c) => TellServer(s, c, Running, Connect(s.conns[c].uuid, c));
    case Receive(c, frame, now) => ReceiveInv(s, c, frame, now);
    case Stop(c) => TellServer(s, c, Stopped, Disconnect(s.conns[c].uuid));
    case Deliver(c) => DeliverInv(s, c);
    case Serve(now) => ServeInv(s, now);
  }

  lemma {:induction false} ExecInv(s: State, cs: seq<Choice>)
    requires Inv(s) && Exec(s, cs).Some?
    ensures Inv(Exec(s, cs).value)
    decreases |cs|
  {
    if cs != [] {
      StepInv(s, cs[0]);
      ExecInv(Step(s, cs[0]).value, cs[1..]);
    }
  }

  lemma RunInv(cs: seq<Choice>, s: State)
    requires Exec(Init(), cs) == Some(s)
    ensures Inv(s)
  {
    hide Inv, Exec;
    InitInv();
    ExecInv(Init(), cs);
  }

  // ---------------------------------------------------------------- theorems over whole runs

  /**
    Totally ordered broadcast. In every run, what was pushed to a client is exactly the slice of
    the one log that starts with its own connect, the only one in the log, and ends with its own
    disconnect, or with the log while it has none; nothing before the connect is logged.
   */
  lemma OrderedWindows(cs: seq<Choice>, s: State, c: ConnId)
    requires Exec(Init(), cs) == Some(s) && c in s.conns
    ensures var u, log := s.conns[c].uuid, s.log;
      && c in s.hub.mailboxes
      && Lo(log, u) <= Hi(log, u)
      && Pushed(s.conns[c], s.hub.mailboxes[c]) == log[Lo(log, u)..Hi(log, u)]
      && (forall i :: 0 <= i < |log| ==> (EntryEvent(log[i]) == Event(u, Join) <==> i == Lo(log, u)))
      && (forall i :: 0 <= i < |log| && EntryEvent(log[i]) == Event(u, Leave) ==> Hi(log, u) == i + 1)
      && (Hi(log, u) < |log| ==> EntryEvent(log[Hi(log, u) - 1]) == Event(u, Leave))
  {
    hide Inv, Exec, Lifecycles, AddressInv, WindowInv, Lo, Hi, Pushed;
    RunInv(cs, s);
    InvParts(s);
    LogLifecycle(s, s.conns[c].uuid);
    WindowSlice(s, c);
  }

  lemma InvParts(s: State)
    requires Inv(s)
    ensures Lifecycles(History(s)) && AddressInv(s.conns, s.mailbox, s.hub)
    ensures WindowInv(s.conns, s.hub.mailboxes, s.log)
  {
    hide Lifecycles, AddressInv, PhaseInv, ClientsInv, WindowInv, History;
  }

  lemma WindowSlice(s: State, c: ConnId)
    requires AddressInv(s.conns, s.mailbox, s.hub) && WindowInv(s.conns, s.hub.mailboxes, s.log) && c in s.conns
    requires Lo(s.log, s.conns[c].uuid) <= Hi(s.log, s.conns[c].uuid)
    ensures c in s.hub.mailboxes
    ensures Pushed(s.conns[c], s.hub.mailboxes[c]) == s.log[Lo(s.log, s.conns[c].uuid)..Hi(s.log, s.conns[c].uuid)]
  {
    hide Lo, Hi, Pushed;
  }

  // The lifecycle of one uuid in the log itself.
  lemma LogLifecycle(s: State, u: Uuid)
    requires Lifecycles(History(s))
    ensures forall i :: 0 <= i < |s.log| ==> (EntryEvent(s.log[i]) == Event(u, Join) <==> i == Lo(s.log, u))
    ensures forall i :: 0 <= i < |s.log| && EntryEvent(s.log[i]) == Event(u, Leave) ==> Hi(s.log, u) == i + 1
    ensures Lo(s.log, u) <= Hi(s.log, u)
    ensures Hi(s.log, u) < |s.log| ==> EntryEvent(s.log[Hi(s.log, u) - 1]) == Event(u, Leave)
  {
    var h := History(s);
    assert forall i :: 0 <= i < |s.log| ==> h[i] == EntryEvent(s.log[i]);
    var leave := First(s.log, Event(u, Leave));
    if leave < |s.log| {
      assert h[leave] == Event(u, Leave);
      assert Event(u, Join) in Seen(h[..leave]);
      var j :| 0 <= j < leave && h[..leave][j] == Event(u, Join);
      assert h[j] == Event(u, Join);
    }
  }

  lemma PushedSlice(cs: seq<Choice>, s: State, c: ConnId)
    requires Exec(Init(), cs) == Some(s) && c in s.conns
    ensures var u := s.conns[c].uuid;
      && c in s.hub.mailboxes
      && Lo(s.log, u) <= Hi(s.log, u)
      && Pushed(s.conns[c], s.hub.mailboxes[c]) == s.log[Lo(s.log, u)..Hi(s.log, u)]
  {
    OrderedWindows(cs, s, c);
  }

  /**
    Any two clients agree on the order of everything both were sent: each was sent the
    broadcasts of one interval of log positions, and broadcast `i` of the log is for both the one
    at distance `i` from the position of its own connect.
   */
  lemma ClientsAgree(cs: seq<Choice>, s: State, a: ConnId, b: ConnId, i: nat)
    requires Exec(Init(), cs) == Some(s) && a in s.conns && b in s.conns
    requires Lo(s.log, s.conns[a].uuid) <= i < Hi(s.log, s.conns[a].uuid)
    requires Lo(s.log, s.conns[b].uuid) <= i < Hi(s.log, s.conns[b].uuid)
    ensures a in s.hub.mailboxes && b in s.hub.mailboxes
    ensures var la, lb := Lo(s.log, s.conns[a].uuid), Lo(s.log, s.conns[b].uuid);
      var pa, pb := Pushed(s.conns[a], s.hub.mailboxes[a]), Pushed(s.conns[b], s.hub.mailboxes[b]);
      i - la < |pa| && i - lb < |pb| && pa[i - la] == pb[i - lb] == s.log[i]
  {
    PushedSlice(cs, s, a);
    PushedSlice(cs, s, b);
  }

  /**
    A client's websocket carries, apart from its own private replies, a prefix of its window,
    and what it still lacks is in its mailbox.
   */
  lemma ForwardedInOrder(cs: seq<Choice>, s: State, c: ConnId)
    requires Exec(Init(), cs) == Some(s) && c in s.conns
    ensures c in s.hub.mailboxes
    ensures
      && RoomTexts(s.conns[c].out) <= Window(s.log, s.conns[c].uuid)
      && Window(s.log, s.conns[c].uuid)[|RoomTexts(s.conns[c].out)|..] == s.hub.mailboxes[c]
  {
    OrderedWindows(cs, s, c);
  }

  // The events of one uuid.
  function Kinds(h: seq<Event>, u: Uuid): seq<Kind> {
    if h == [] then []
    else Kinds(h[..|h| - 1], u) + (if h[|h| - 1].uuid == u then [h[|h| - 1].kind] else [])
  }

  // A prefix of: join, any number of chats, leave.
  predicate UserShape(ks: seq<Kind>) {
    forall i :: 0 <= i < |ks| ==> (ks[i].Join? <==> i == 0) && (ks[i].Leave? ==> i == |ks| - 1)
  }

  lemma {:induction false} KindsShape(h: seq<Event>, u: Uuid)
    requires Lifecycles(h)
    ensures UserShape(Kinds(h, u))
    ensures Kinds(h, u) == [] <==> Unknown(Seen(h), u)
    ensures Kinds(h, u) != [] ==> (Kinds(h, u)[|Kinds(h, u)| - 1].Leave? <==> Event(u, Leave) in Seen(h))
  {
    hide Lifecycles, Seen;
    if h != [] {
      var n := |h| - 1;
      var g, e := h[..n], h[n];
      assert h == g + [e];
      LifecyclesOrder(h, n);
      LifecyclesPrefix(h, n);
      KindsShape(g, u);
      SeenExtends(g, e);
    } else {
      SeenNothing();
    }
  }

  lemma SeenNothing()
    ensures Seen([]) == {}
  {
  }

  lemma LifecyclesPrefix(h: seq<Event>, n: nat)
    requires Lifecycles(h) && n <= |h|
    ensures Lifecycles(h[..n])
  {
    forall j | 0 <= j < n && !h[..n][j].kind.Join?
      ensures Event(h[..n][j].uuid, Join) in Seen(h[..n][..j])
    {
      assert h[..n][..j] == h[..j];
    }
  }

  /**
    Per-user protocol. In every run the logged events of one uuid, followed by those waiting in
    the server's mailbox, are a prefix of connect, chats, disconnect; and a uuid is in the client
    table exactly between its logged connect and its logged disconnect.
   */
  lemma UserProtocol(cs: seq<Choice>, s: State, u: Uuid)
    requires Exec(Init(), cs) == Some(s)
    ensures UserShape(Kinds(History(s), u))
    ensures var logged := Kinds(LogEvents(s.log), u);
      u in s.hub.clients <==> logged != [] && !logged[|logged| - 1].Leave?
  {
    hide Lifecycles, Seen, Exec, PhaseInv, WindowInv, ClientsInv;
    RunInv(cs, s);
    KindsShape(History(s), u);
    ClientShape(s, u);
  }

  lemma ClientShape(s: State, u: Uuid)
    requires Lifecycles(History(s)) && ClientsInv(s.hub.clients, Seen(LogEvents(s.log)))
    ensures var logged := Kinds(LogEvents(s.log), u);
      u in s.hub.clients <==> logged != [] && !logged[|logged| - 1].Leave?
  {
    hide Lifecycles, Seen, Kinds;
    assert LogEvents(s.log) == History(s)[..|s.log|];
    LifecyclesPrefix(History(s), |s.log|);
    KindsShape(LogEvents(s.log), u);
    JoinIfKnown(LogEvents(s.log), u);
  }

  lemma JoinIfKnown(h: seq<Event>, u: Uuid)
    requires Lifecycles(h)
    ensures Unknown(Seen(h), u) <==> Event(u, Join) !in Seen(h)
  {
    forall e | e in Seen(h) && e.uuid == u
      ensures Event(u, Join) in Seen(h)
    {
      var j :| 0 <= j < |h| && h[j] == e;
      assert forall x :: x in Seen(h[..j]) ==> x in Seen(h);
    }
  }

  /** The server only ever broadcasts a chat of a user that is in its client table. */
  lemma ChatsComeFromClients(cs: seq<Choice>, s: State, now: nat)
    requires Exec(Init(), cs) == Some(s) && Step(s, Serve(now)).Some?
    requires s.mailbox[0].Chat?
    ensures s.mailbox[0].uuid in s.hub.clients
  {
    hide Inv, Exec, HandleMail;
    RunInv(cs, s);
    ChatFromClient(s, now);
  }

  lemma ChatFromClient(s: State, now: nat)
    requires Inv(s) && s.mailbox != [] && s.mailbox[0].Chat?
    ensures s.mailbox[0].uuid in s.hub.clients
  {
    hide Lifecycles, Window, HasConn, LogEvents, First, PushAll, PushOne, RoomTexts, Seen;
    MailMoves(s, now, Step(s, Serve(now)).value);
    LifecyclesOrder(History(s), |s.log|);
  }

  // ---------------------------------------------------------------- what users say

  // What was said, and when it arrived.
  datatype Chatted = Chatted(contents: string, ts: nat)

  function SaidBy(log: seq<Entry>, u: Uuid): seq<Chatted> {
    if log == [] then []
    else
      var e := log[|log| - 1];
      SaidBy(log[..|log| - 1], u) + (if e.Said? && e.uuid == u then [Chatted(e.contents, e.ts)] else [])
  }

  function ChatsOf(mail: seq<Mail>, u: Uuid): seq<Chatted> {
    if mail == [] then []
    else
      var m := mail[0];
      (if m.Chat? && m.uuid == u then [Chatted(m.contents, m.ts)] else []) + ChatsOf(mail[1..], u)
  }

  // What the server has logged or still has to log of a user's chats.
  function Heard(s: State, u: Uuid): seq<Chatted> {
    SaidBy(s.log, u) + ChatsOf(s.mailbox, u)
  }

  // What arrived on a connection's websocket as a well-formed chat, in order.
  function Spoken(cs: seq<Choice>, c: ConnId): seq<Chatted> {
    if cs == [] then [] else Uttered(cs[0], c) + Spoken(cs[1..], c)
  }

  function Uttered(ch: Choice, c: ConnId): seq<Chatted> {
    if ch.Receive? && ch.c == c && ch.frame.Text? && ch.frame.contents.Some?
    then [Chatted(ch.frame.contents.value, ch.now)] else []
  }

  lemma {:induction false} ChatsAppend(mail: seq<Mail>, m: Mail, u: Uuid)
    ensures ChatsOf(mail + [m], u) == ChatsOf(mail, u) + ChatsOf([m], u)
  {
    if mail == [] {
      assert mail + [m] == [m];
    } else {
      assert (mail + [m])[1..] == mail[1..] + [m];
      ChatsAppend(mail[1..], m, u);
    }
  }

  lemma HeardMail(s: State, m: Mail, u: Uuid, s': State)
    requires s'.log == s.log && s'.mailbox == s.mailbox + [m]
    ensures Heard(s', u) == Heard(s, u) + (if m.Chat? && m.uuid == u then [Chatted(m.contents, m.ts)] else [])
  {
    ChatsAppend(s.mailbox, m, u);
    assert [m][1..] == [];
  }

  lemma HeardServe(s: State, now: nat, u: Uuid, s': State)
    requires s.mailbox != [] && s'.mailbox == s.mailbox[1..]
    requires s'.log == s.log + [EntryFor(s.mailbox[0], now)]
    ensures Heard(s', u) == Heard(s, u)
  {
    assert s'.log[..|s'.log| - 1] == s.log;
  }

  // One step, for a uuid that is no other connection's.
  lemma HeardStep(s: State, ch: Choice, c: ConnId, u: Uuid)
    requires Step(s, ch).Some?
    requires forall d :: d in s.conns ==> (s.conns[d].uuid == u <==> d == c)
    ensures Heard(Step(s, ch).value, u) == Heard(s, u) + Uttered(ch, c)
  {
    hide Heard, HandleMail, RoomTexts;
    var s' := Step(s, ch).value;
    match ch
    case Start(d) => HeardMail(s, Connect(s.conns[d].uuid, d), u, s');
    case Stop(d) => HeardMail(s, Disconnect(s.conns[d].uuid), u, s');
    case Receive(d, Text(Some(contents)), now) => HeardMail(s, Chat(s.conns[d].uuid, contents, now), u, s');
    case Serve(now) => HeardServe(s, now, u, s');
    case _ => HeardSame(s, s', u);
  }

  lemma HeardSame(s: State, s': State, u: Uuid)
    requires s'.log == s.log && s'.mailbox == s.mailbox
    ensures Heard(s', u) == Heard(s, u)
  {
  }

  lemma UuidsStay(s: State, ch: Choice, d: ConnId)
    requires Step(s, ch).Some? && d in s.conns
    ensures d in Step(s, ch).value.conns && Step(s, ch).value.conns[d].uuid == s.conns[d].uuid
  {
    hide HandleMail;
  }

  lemma {:induction false} UuidsStayAll(s: State, cs: seq<Choice>, d: ConnId)
    requires Exec(s, cs).Some? && d in s.conns
    ensures d in Exec(s, cs).value.conns && Exec(s, cs).value.conns[d].uuid == s.conns[d].uuid
    decreases |cs|
  {
    hide Step;
    if cs != [] {
      UuidsStay(s, cs[0], d);
      UuidsStayAll(Step(s, cs[0]).value, cs[1..], d);
    }
  }

  lemma {:induction false} HeardAll(s: State, cs: seq<Choice>, c: ConnId, u: Uuid)
    requires Exec(s, cs).Some?
    requires forall d :: d in Exec(s, cs).value.conns ==> (Exec(s, cs).value.conns[d].uuid == u <==> d == c)
    ensures Heard(Exec(s, cs).value, u) == Heard(s, u) + Spoken(cs, c)
    decreases |cs|
  {
    hide Step, Heard, Uttered;
    if cs != [] {
      forall d | d in s.conns
        ensures s.conns[d].uuid == u <==> d == c
      {
        UuidsStayAll(s, cs, d);
      }
      HeardStep(s, cs[0], c, u);
      HeardAll(Step(s, cs[0]).value, cs[1..], c, u);
    }
  }

  /**
    Nothing said is lost, doubled, reordered, restamped or attributed to somebody else: the contents
    and timestamps of one user's logged chats, followed by those in the server's mailbox, are
    exactly the well-formed texts that arrived on that user's websocket, in order.
   */
  lemma ChatsAreConserved(cs: seq<Choice>, s: State, c: ConnId)
    requires Exec(Init(), cs) == Some(s) && c in s.conns
    ensures SaidBy(s.log, s.conns[c].uuid) + ChatsOf(s.mailbox, s.conns[c].uuid) == Spoken(cs, c)
  {
    hide Exec, Lifecycles, Seen, PhaseInv, ClientsInv, WindowInv;
    RunInv(cs, s);
    HeardAll(Init(), cs, c, s.conns[c].uuid);
  }
}
