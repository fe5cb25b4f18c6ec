/**
  The room of the Go server (wschat-go/main.go): any number of connection handlers and broadcasts
  over a sync.Map of per-client channels. Each channel is a GoChannel.State, and every call to its
  Send or Close runs there one atomic action at a time.

  A broadcast is known by its number, and carries a message; the values sent over the channels are
  these numbers.
 */
module GoRoom {
  import opened Messages
  import opened Options
  import opened Sums
  import G = GoChannel

  type Uuid = string

  // Spawned: the goroutine exists, or the handler is at the call, but Range has not begun.
  datatype BcastPc = Spawned | Ranging | Sending(u: Uuid) | Ended

  // A broadcast. `visited` maps the keys that Range has passed to the
  // function to the Send call made for them. `start` holds the keys when Range began, `due`
  // those of them not deleted since, and `seen` those present at some time since.
  datatype Bcast = Bcast(
    msg: Message, pc: BcastPc, visited: map<Uuid, nat>, start: set<Uuid>, due: set<Uuid>, seen: set<Uuid>)

  // Announcing: in the broadcast of the own connect; Greeting: at ws.Write of it; Storing: at
  // clients.Store; Serving: in the receive loop; Closing: in channel.Close; Deleting: at
  // clients.Delete.
  datatype HandlerPc = Announcing | Greeting | Storing | Serving | Closing(t: nat) | Deleting | Left

  // `connect` is the number of the broadcast of the own connect. `contents` is that field of the
  // variable msg, which the receive loop decodes into again and again, and which starts out as the
  // own connect message.
  datatype Handler = Handler(pc: HandlerPc, connect: nat, contents: string)

  // `sockets` holds what was handed to ws.Write for each client, apart from error replies.
  datatype State = State(
    stored: set<Uuid>, chans: map<Uuid, G.State<nat>>, bcasts: seq<Bcast>,
    handlers: map<Uuid, Handler>, sockets: map<Uuid, seq<nat>>)

  datatype Choice =
    | Open(u: Uuid, now: int)
    | Handle(u: Uuid)
    | ReceiveChat(u: Uuid, contents: Option<string>, now: int)
    | Hangup(u: Uuid, now: int)
    | Start(b: nat)
    | Visit(b: nat, u: Uuid)
    | Return(b: nat)
    | Finish(b: nat)
    | Channel(u: Uuid, ch: G.Choice<nat>)

  const CAPACITY: nat := 50

  function Init(): State {
    State({}, map[], [], map[], map[])
  }

  // A new broadcast, to which goroutine or call Range is still to come.
  function Spawn(s: State, msg: Message): State {
    s.(bcasts := s.bcasts + [Bcast(msg, Spawned, map[], {}, {}, {})])
  }

  function Ranged(s: State, b: nat): Bcast
    requires b < |s.bcasts|
  {
    s.bcasts[b].(pc := Ranging, visited := map[], start := s.stored, due := s.stored, seen := s.stored)
  }

  function SetHandler(s: State, u: Uuid, pc: HandlerPc): State
    requires u in s.handlers
  {
    s.(handlers := s.handlers[u := s.handlers[u].(pc := pc)])
  }

  function SetBcast(s: State, b: nat, bc: Bcast): State
    requires b < |s.bcasts|
  {
    s.(bcasts := s.bcasts[b := bc])
  }

  function Call(s: State, u: Uuid, call: G.Call<nat>): State
    requires u in s.chans
  {
    s.(chans := s.chans[u := s.chans[u].(calls := s.chans[u].calls + [call])])
  }

  function Store(s: State, u: Uuid): State {
    s.(stored := s.stored + {u}, chans := s.chans[u := G.Init(CAPACITY)],
       bcasts := seq(|s.bcasts|, b requires 0 <= b < |s.bcasts| => s.bcasts[b].(seen := s.bcasts[b].seen + {u})))
  }

  function Delete(s: State, u: Uuid): State {
    s.(stored := s.stored - {u},
       bcasts := seq(|s.bcasts|, b requires 0 <= b < |s.bcasts| => s.bcasts[b].(due := s.bcasts[b].due - {u})))
  }

  // The next action of a handler that does not wait for the client.
  function HandlerStep(s: State, u: Uuid): Option<State>
    requires u in s.handlers
  {
    var h := s.handlers[u];
    match h.pc
    case Announcing =>
      if h.connect < |s.bcasts| && s.bcasts[h.connect].pc.Ended? then Some(SetHandler(s, u, Greeting)) else None
    case Greeting => Some(SetHandler(s, u, Storing).(sockets := s.sockets[u := [h.connect]]))
    case Storing => Some(SetHandler(Store(s, u), u, Serving))
    case Serving => None
    case Closing(t) =>
      if u in s.chans && t < |s.chans[u].calls| && s.chans[u].calls[t].CloseDone?
        then Some(SetHandler(s, u, Deleting)) else None
    case Deleting => Some(SetHandler(Delete(s, u), u, Left))
    case Left => None
  }

  function Step(s: State, ch: Choice): Option<State> {
    match ch
    case Open(u, now) =>
      if u in s.handlers then None
      else
        var s' := Spawn(s, Message("system", Connect, u, now));
        Some(s'.(handlers := s.handlers[u := Handler(Announcing, |s.bcasts|, u)]))
    case Handle(u) => if u in s.handlers then HandlerStep(s, u) else None
    case ReceiveChat(u, contents, now) =>
      if u in s.handlers && s.handlers[u].pc.Serving? then
        // A field that is missing in the text leaves the variable as it was.
        var h := s.handlers[u].(contents := if contents.Some? then contents.value else s.handlers[u].contents);
        Some(Spawn(s, Message(u, Chat, h.contents, now)).(handlers := s.handlers[u := h]))
      else None
    case Hangup(u, now) =>
      // go broadcastMsg(disconnect), then channel.Close()
      if u in s.handlers && s.handlers[u].pc.Serving? && u in s.chans
      then Some(SetHandler(Call(Spawn(s, Message("system", Disconnect, u, now)), u, G.CloseStart), u,
                           Closing(|s.chans[u].calls|)))
      else None
    case Start(b) =>
      if b < |s.bcasts| && s.bcasts[b].pc.Spawned? then Some(SetBcast(s, b, Ranged(s, b))) else None
    case Visit(b, u) =>
      if b < |s.bcasts| && s.bcasts[b].pc.Ranging? && u in s.bcasts[b].seen && u !in s.bcasts[b].visited && u in s.chans
      then
        var bc := s.bcasts[b];
        Some(SetBcast(Call(s, u, G.SendStart(b)), b, bc.(pc := Sending(u),
          visited := bc.visited[u := |s.chans[u].calls|])))
      else None
    case Return(b) =>
      if b < |s.bcasts| && s.bcasts[b].pc.Sending? && SendReturned(s, b)
      then Some(SetBcast(s, b, s.bcasts[b].(pc := Ranging)))
      else None
    case Finish(b) =>
      if b < |s.bcasts| && s.bcasts[b].pc.Ranging? && s.bcasts[b].due <= s.bcasts[b].visited.Keys
      then Some(SetBcast(s, b, s.bcasts[b].(pc := Ended)))
      else None
    case Channel(u, gch) =>
      if u !in s.chans || u !in s.sockets || gch.Begin? then None
      else
        var g := s.chans[u];
        match G.Step(g, gch)
        case None => None
        case Some(g') =>
          Some(s.(chans := s.chans[u := g'],
                  sockets := if gch.Drain? && g.writer.Writing? then s.sockets[u := s.sockets[u] + [g.writer.msg]]
                             else s.sockets))
  }

  predicate SendReturned(s: State, b: nat)
    requires b < |s.bcasts| && s.bcasts[b].pc.Sending?
  {
    var u := s.bcasts[b].pc.u;
    && u in s.bcasts[b].visited && u in s.chans
    && s.bcasts[b].visited[u] < |s.chans[u].calls| && s.chans[u].calls[s.bcasts[b].visited[u]].SendDone?
  }

  function Exec(s: State, cs: seq<Choice>): Option<State>
    decreases |cs|
  {
    if cs == [] then Some(s)
    else match Step(s, cs[0])
      case None => None
      case Some(s') => Exec(s', cs[1..])
  }

  // ---------------------------------------------------------------- the invariant

  // The value a call sends; None for a Close.
  function ValOf(c: G.Call<nat>): Option<nat> {
    match c
    case SendStart(v) => Some(v)
    case SendLocked(v) => Some(v)
    case SendChecked(v) => Some(v)
    case SendUnlock(v, _) => Some(v)
    case SendDone(v, _) => Some(v)
    case _ => None
  }

  // A channel keeps its own invariants, for every value.
  ghost predicate ChanInv(g: G.State<nat>) {
    G.Inv(g) && forall v: nat :: G.SentInv(g, v)
  }

  // The Send calls on a channel are those its broadcasts made for it, one each.
  ghost predicate CallsInv(u: Uuid, g: G.State<nat>, bcasts: seq<Bcast>) {
    && (forall t :: 0 <= t < |g.calls| && ValOf(g.calls[t]).Some? ==>
          var b := ValOf(g.calls[t]).value;
          b < |bcasts| && u in bcasts[b].visited && bcasts[b].visited[u] == t)
    && (forall b :: 0 <= b < |bcasts| && u in bcasts[b].visited ==>
          var t := bcasts[b].visited[u];
          && t < |g.calls| && ValOf(g.calls[t]) == Some(b)
          && (g.calls[t].SendDone? || bcasts[b].pc == Sending(u)))
  }

  ghost predicate BcastInv(s: State, bc: Bcast) {
    && bc.visited.Keys <= s.chans.Keys && bc.seen <= s.chans.Keys && bc.start <= s.chans.Keys
    && (!bc.pc.Spawned? ==> bc.start * s.stored <= bc.due)
    && bc.due <= bc.seen
    && (bc.pc.Spawned? ==> bc.visited == map[])
    && (bc.pc.Sending? ==> bc.pc.u in bc.visited)
    && (bc.pc.Ended? ==> bc.due <= bc.visited.Keys)
  }

  predicate Live(pc: HandlerPc) {
    pc.Serving? || pc.Closing? || pc.Deleting?
  }

  ghost predicate HandlerInv(s: State, u: Uuid, h: Handler) {
    && h.connect < |s.bcasts|
    && (u in s.stored <==> Live(h.pc))
    && (u in s.chans <==> Live(h.pc) || h.pc.Left?)
    && (u in s.sockets <==> !h.pc.Announcing? && !h.pc.Greeting?)
    && (u in s.sockets ==> s.sockets[u] == [h.connect] + (if u in s.chans then s.chans[u].written else []))
    && (h.pc.Serving? ==> NoClose(s.chans[u]))
  }

  ghost predicate NoClose(g: G.State<nat>) {
    forall t :: 0 <= t < |g.calls| ==> ValOf(g.calls[t]).Some?
  }

  ghost predicate Inv(s: State) {
    && (forall u :: u in s.chans ==> u in s.handlers && ChanInv(s.chans[u]) && CallsInv(u, s.chans[u], s.bcasts))
    && (forall b :: 0 <= b < |s.bcasts| ==> BcastInv(s, s.bcasts[b]))
    && (forall u :: u in s.handlers ==> HandlerInv(s, u, s.handlers[u]))
    && s.stored <= s.handlers.Keys && s.sockets.Keys <= s.handlers.Keys
  }

  lemma InitInv()
    ensures Inv(Init())
  {
  }

  // ---------------------------------------------------------------- one channel

  lemma NewChanInv()
    ensures ChanInv(G.Init(CAPACITY)) && G.Init<nat>(CAPACITY).calls == [] && G.Init<nat>(CAPACITY).written == []
  {
  }

  lemma ChanStep(g: G.State<nat>, ch: G.Choice<nat>)
    requires ChanInv(g) && G.Step(g, ch).Some?
    ensures ChanInv(G.Step(g, ch).value)
  {
    G.StepInv(g, ch);
    forall v: nat
      ensures G.SentInv(G.Step(g, ch).value, v)
    {
      G.SentStep(g, ch, v);
    }
  }

  // An action on a channel starts no call, changes no call's value and undoes no return.
  lemma CallsKept(g: G.State<nat>, ch: G.Choice<nat>)
    requires ChanInv(g) && G.Step(g, ch).Some? && !ch.Begin?
    ensures var g' := G.Step(g, ch).value;
      && |g'.calls| == |g.calls|
      && (forall t :: 0 <= t < |g.calls| ==> ValOf(g'.calls[t]) == ValOf(g.calls[t]))
      && (forall t :: 0 <= t < |g.calls| && g.calls[t].SendDone? ==> g'.calls[t].SendDone?)
      && g'.written == g.written + (if ch.Drain? && g.writer.Writing? then [g.writer.msg] else [])
  {
    if ch.Advance? {
      CallKept(g, ch.t);
    }
  }

  lemma CallKept(g: G.State<nat>, t: nat)
    requires ChanInv(g) && t < |g.calls| && G.AdvanceCall(g, t).Some?
    ensures var g' := G.AdvanceCall(g, t).value;
      && g'.calls == g.calls[t := g'.calls[t]]
      && ValOf(g'.calls[t]) == ValOf(g.calls[t]) && !g.calls[t].SendDone?
      && g'.written == g.written
  {
    var c := G.AdvanceShape(g, t);
  }

  // ---------------------------------------------------------------- the steps

  lemma AddBcastInv(s: State, msg: Message)
    requires Inv(s)
    ensures Inv(Spawn(s, msg))
  {
    hide ChanInv, NoClose, ValOf;
    var s' := Spawn(s, msg);
    forall b | 0 <= b < |s'.bcasts|
      ensures BcastInv(s', s'.bcasts[b])
    {
      if b < |s.bcasts| {
        assert BcastInv(s, s.bcasts[b]);
      }
    }
    forall u | u in s.handlers
      ensures HandlerInv(s', u, s'.handlers[u])
    {
      assert HandlerInv(s, u, s.handlers[u]);
    }
  }

  lemma SetHandlerInv(s: State, u: Uuid, pc: HandlerPc)
    requires Inv(s) && u in s.handlers
    requires HandlerInv(s, u, s.handlers[u].(pc := pc))
    ensures Inv(SetHandler(s, u, pc))
  {
    hide ChanInv, NoClose, ValOf, CallsInv;
    var s' := SetHandler(s, u, pc);
    forall v | v in s'.handlers
      ensures HandlerInv(s', v, s'.handlers[v])
    {
      if v != u {
        assert HandlerInv(s, v, s.handlers[v]);
      }
    }
    forall b | 0 <= b < |s.bcasts|
      ensures BcastInv(s', s'.bcasts[b])
    {
      assert BcastInv(s, s.bcasts[b]);
    }
  }

  lemma GreetInv(s: State, u: Uuid)
    requires Inv(s) && u in s.handlers && s.handlers[u].pc.Greeting?
    ensures Inv(HandlerStep(s, u).value)
  {
    hide ChanInv, NoClose, ValOf, CallsInv;
    var s' := HandlerStep(s, u).value;
    forall v | v in s'.handlers
      ensures HandlerInv(s', v, s'.handlers[v])
    {
      assert HandlerInv(s, v, s.handlers[v]);
    }
    forall b | 0 <= b < |s.bcasts|
      ensures BcastInv(s', s'.bcasts[b])
    {
      assert BcastInv(s, s.bcasts[b]);
    }
  }

  lemma StoreHandlers(s: State, u: Uuid)
    requires Inv(s) && u in s.handlers && s.handlers[u].pc.Storing?
    ensures var s' := HandlerStep(s, u).value;
      forall v :: v in s'.handlers ==> HandlerInv(s', v, s'.handlers[v])
  {
    hide ChanInv, ValOf, CallsInv, BcastInv;
    NewChanInv();
    var s' := HandlerStep(s, u).value;
    forall v | v in s'.handlers
      ensures HandlerInv(s', v, s'.handlers[v])
    {
      assert HandlerInv(s, v, s.handlers[v]);
    }
  }

  lemma StoreBcasts(s: State, u: Uuid)
    requires Inv(s) && u in s.handlers && s.handlers[u].pc.Storing?
    ensures var s' := HandlerStep(s, u).value;
      && |s'.bcasts| == |s.bcasts|
      && forall b :: 0 <= b < |s.bcasts| ==>
           && BcastInv(s', s'.bcasts[b])
           && s'.bcasts[b] == s.bcasts[b].(seen := s'.bcasts[b].seen)
           && u !in s.bcasts[b].visited
  {
    hide ChanInv, ValOf, CallsInv, NoClose;
    var s' := HandlerStep(s, u).value;
    assert HandlerInv(s, u, s.handlers[u]);
    forall b | 0 <= b < |s.bcasts|
      ensures BcastInv(s', s'.bcasts[b]) && s'.bcasts[b] == s.bcasts[b].(seen := s'.bcasts[b].seen)
      ensures u !in s.bcasts[b].visited
    {
      assert BcastInv(s, s.bcasts[b]);
    }
  }

  lemma StoreInv(s: State, u: Uuid)
    requires Inv(s) && u in s.handlers && s.handlers[u].pc.Storing?
    ensures Inv(HandlerStep(s, u).value)
  {
    hide ChanInv, ValOf, HandlerInv, BcastInv;
    NewChanInv();
    var s' := HandlerStep(s, u).value;
    StoreHandlers(s, u);
    StoreBcasts(s, u);
    forall v | v in s'.chans
      ensures ChanInv(s'.chans[v]) && CallsInv(v, s'.chans[v], s'.bcasts)
    {
      if v != u {
        assert CallsInv(v, s.chans[v], s.bcasts);
      }
    }
  }

  lemma DeleteHandlers(s: State, u: Uuid)
    requires Inv(s) && u in s.handlers && s.handlers[u].pc.Deleting?
    ensures var s' := HandlerStep(s, u).value;
      forall v :: v in s'.handlers ==> HandlerInv(s', v, s'.handlers[v])
  {
    hide ChanInv, ValOf, NoClose, CallsInv, BcastInv;
    var s' := HandlerStep(s, u).value;
    forall v | v in s'.handlers
      ensures HandlerInv(s', v, s'.handlers[v])
    {
      assert HandlerInv(s, v, s.handlers[v]);
    }
  }

  lemma DeleteBcasts(s: State, u: Uuid)
    requires Inv(s) && u in s.handlers && s.handlers[u].pc.Deleting?
    ensures var s' := HandlerStep(s, u).value;
      && |s'.bcasts| == |s.bcasts|
      && forall b :: 0 <= b < |s.bcasts| ==>
           BcastInv(s', s'.bcasts[b]) && s'.bcasts[b] == s.bcasts[b].(due := s'.bcasts[b].due)
  {
    hide ChanInv, ValOf, CallsInv, NoClose, HandlerInv;
    var s' := HandlerStep(s, u).value;
    forall b | 0 <= b < |s.bcasts|
      ensures BcastInv(s', s'.bcasts[b]) && s'.bcasts[b] == s.bcasts[b].(due := s'.bcasts[b].due)
    {
      assert BcastInv(s, s.bcasts[b]);
    }
  }

  lemma DeleteInv(s: State, u: Uuid)
    requires Inv(s) && u in s.handlers && s.handlers[u].pc.Deleting?
    ensures Inv(HandlerStep(s, u).value)
  {
    hide ChanInv, ValOf, HandlerInv, BcastInv;
    var s' := HandlerStep(s, u).value;
    DeleteHandlers(s, u);
    DeleteBcasts(s, u);
    forall v | v in s'.chans
      ensures ChanInv(s'.chans[v]) && CallsInv(v, s'.chans[v], s'.bcasts)
    {
      assert CallsInv(v, s.chans[v], s.bcasts);
    }
  }

  lemma StartInv(s: State, b: nat)
    requires Inv(s) && b < |s.bcasts| && s.bcasts[b].pc.Spawned?
    ensures Inv(SetBcast(s, b, Ranged(s, b)))
  {
    hide ChanInv, ValOf, NoClose;
    var s' := SetBcast(s, b, Ranged(s, b));
    assert BcastInv(s, s.bcasts[b]);
    forall c | 0 <= c < |s.bcasts|
      ensures BcastInv(s', s'.bcasts[c])
    {
      assert BcastInv(s, s.bcasts[c]);
      assert forall u :: u in s.stored ==> HandlerInv(s, u, s.handlers[u]);
    }
    forall v | v in s'.handlers
      ensures HandlerInv(s', v, s'.handlers[v])
    {
      assert HandlerInv(s, v, s.handlers[v]);
    }
    forall v | v in s'.chans
      ensures CallsInv(v, s'.chans[v], s'.bcasts)
    {
      assert CallsInv(v, s.chans[v], s.bcasts);
    }
  }

  // A broadcast moves on without visiting anything.
  lemma MoveInv(s: State, b: nat, pc: BcastPc)
    requires Inv(s) && b < |s.bcasts| && !s.bcasts[b].pc.Ended? && !s.bcasts[b].pc.Spawned?
    requires s.bcasts[b].pc.Sending? ==> SendReturned(s, b)
    requires pc.Ranging? || (pc.Ended? && s.bcasts[b].due <= s.bcasts[b].visited.Keys)
    ensures Inv(SetBcast(s, b, s.bcasts[b].(pc := pc)))
  {
    hide ChanInv, ValOf, NoClose;
    var s' := SetBcast(s, b, s.bcasts[b].(pc := pc));
    forall c | 0 <= c < |s.bcasts|
      ensures BcastInv(s', s'.bcasts[c])
    {
      assert BcastInv(s, s.bcasts[c]);
    }
    forall v | v in s'.handlers
      ensures HandlerInv(s', v, s'.handlers[v])
    {
      assert HandlerInv(s, v, s.handlers[v]);
    }
    forall v | v in s'.chans
      ensures CallsInv(v, s'.chans[v], s'.bcasts)
    {
      assert CallsInv(v, s.chans[v], s.bcasts);
    }
  }

  // ---- a step on one channel, and a new call on it

  lemma BcastsKept(s: State, s': State)
    requires Inv(s) && s'.bcasts == s.bcasts && s'.stored == s.stored && s'.chans.Keys == s.chans.Keys
    ensures forall b :: 0 <= b < |s'.bcasts| ==> BcastInv(s', s'.bcasts[b])
  {
    hide ChanInv, CallsInv, HandlerInv;
    forall b | 0 <= b < |s'.bcasts|
      ensures BcastInv(s', s'.bcasts[b])
    {
      assert BcastInv(s, s.bcasts[b]);
    }
  }

  // The calls of one channel moved on.
  lemma CallsMoved(u: Uuid, g: G.State<nat>, g': G.State<nat>, bcasts: seq<Bcast>)
    requires CallsInv(u, g, bcasts)
    requires |g'.calls| == |g.calls|
    requires forall t :: 0 <= t < |g.calls| ==> ValOf(g'.calls[t]) == ValOf(g.calls[t])
    requires forall t :: 0 <= t < |g.calls| && g.calls[t].SendDone? ==> g'.calls[t].SendDone?
    ensures CallsInv(u, g', bcasts)
    ensures NoClose(g) ==> NoClose(g')
  {
    hide ValOf;
  }

  // The broadcast `b` made the next call on the channel of `u`.
  lemma CallsVisited(u: Uuid, g: G.State<nat>, bcasts: seq<Bcast>, b: nat)
    requires CallsInv(u, g, bcasts) && b < |bcasts| && bcasts[b].pc.Ranging? && u !in bcasts[b].visited
    ensures var bc := bcasts[b].(pc := Sending(u), visited := bcasts[b].visited[u := |g.calls|]);
      CallsInv(u, g.(calls := g.calls + [G.SendStart(b)]), bcasts[b := bc])
  {
    var calls' := g.calls + [G.SendStart(b)];
    assert ValOf(calls'[|g.calls|]) == Some(b);
    hide ValOf;
    assert forall t :: 0 <= t < |g.calls| ==> calls'[t] == g.calls[t];
  }

  // The same for the channels that are not visited.
  lemma CallsElsewhere(v: Uuid, g: G.State<nat>, bcasts: seq<Bcast>, b: nat, u: Uuid, t: nat)
    requires CallsInv(v, g, bcasts) && b < |bcasts| && bcasts[b].pc.Ranging? && u != v
    ensures var bc := bcasts[b].(pc := Sending(u), visited := bcasts[b].visited[u := t]);
      CallsInv(v, g, bcasts[b := bc])
  {
    hide ValOf;
  }

  lemma VisitHandler(s: State, b: nat, u: Uuid, v: Uuid)
    requires Step(s, Visit(b, u)).Some? && v in s.handlers && HandlerInv(s, v, s.handlers[v])
    ensures var s' := Step(s, Visit(b, u)).value; v in s'.handlers && HandlerInv(s', v, s'.handlers[v])
  {
    hide NoClose;
    var g := s.chans[u];
    if v == u && NoClose(g) {
      StillNoClose(g, b);
    }
  }

  lemma StillNoClose(g: G.State<nat>, b: nat)
    requires NoClose(g)
    ensures NoClose(g.(calls := g.calls + [G.SendStart(b)]))
  {
  }

  lemma VisitHandlers(s: State, b: nat, u: Uuid)
    requires Inv(s) && Step(s, Visit(b, u)).Some?
    ensures var s' := Step(s, Visit(b, u)).value;
      forall v :: v in s'.handlers ==> HandlerInv(s', v, s'.handlers[v])
  {
    hide ChanInv, CallsInv, BcastInv, HandlerInv;
    var s' := Step(s, Visit(b, u)).value;
    forall v | v in s'.handlers
      ensures HandlerInv(s', v, s'.handlers[v])
    {
      VisitHandler(s, b, u, v);
    }
  }

  lemma VisitBcasts(s: State, b: nat, u: Uuid)
    requires Inv(s) && Step(s, Visit(b, u)).Some?
    ensures var s' := Step(s, Visit(b, u)).value;
      forall c :: 0 <= c < |s'.bcasts| ==> BcastInv(s', s'.bcasts[c])
  {
    hide ChanInv, CallsInv, HandlerInv;
    var s' := Step(s, Visit(b, u)).value;
    forall c | 0 <= c < |s'.bcasts|
      ensures BcastInv(s', s'.bcasts[c])
    {
      assert BcastInv(s, s.bcasts[c]);
    }
  }

  lemma VisitInv(s: State, b: nat, u: Uuid)
    requires Inv(s) && Step(s, Visit(b, u)).Some?
    ensures Inv(Step(s, Visit(b, u)).value)
  {
    hide ChanInv, CallsInv, HandlerInv, BcastInv;
    var s' := Step(s, Visit(b, u)).value;
    var g := s.chans[u];
    ChanStep(g, G.Begin(G.SendStart(b)));
    VisitBcasts(s, b, u);
    VisitHandlers(s, b, u);
    CallsVisited(u, g, s.bcasts, b);
    forall v | v in s'.chans
      ensures v in s'.handlers && ChanInv(s'.chans[v]) && CallsInv(v, s'.chans[v], s'.bcasts)
    {
      if v != u {
        CallsElsewhere(v, s.chans[v], s.bcasts, b, u, |g.calls|);
      }
    }
  }

  lemma CloseHandlers(s: State, u: Uuid)
    requires Inv(s) && u in s.handlers && s.handlers[u].pc.Serving? && u in s.chans
    ensures var s' := SetHandler(Call(s, u, G.CloseStart), u, Closing(|s.chans[u].calls|));
      forall v :: v in s'.handlers ==> HandlerInv(s', v, s'.handlers[v])
  {
    hide ChanInv, CallsInv, BcastInv, NoClose;
    var s' := SetHandler(Call(s, u, G.CloseStart), u, Closing(|s.chans[u].calls|));
    forall v | v in s'.handlers
      ensures HandlerInv(s', v, s'.handlers[v])
    {
      assert HandlerInv(s, v, s.handlers[v]);
    }
  }

  // A Close call changes nothing about the Send calls.
  lemma CallsClosed(u: Uuid, g: G.State<nat>, bcasts: seq<Bcast>)
    requires CallsInv(u, g, bcasts)
    ensures CallsInv(u, g.(calls := g.calls + [G.CloseStart]), bcasts)
  {
    var calls' := g.calls + [G.CloseStart];
    assert ValOf(calls'[|g.calls|]) == None;
    hide ValOf;
    assert forall t :: 0 <= t < |g.calls| ==> calls'[t] == g.calls[t];
  }

  lemma CloseInv(s: State, u: Uuid)
    requires Inv(s) && u in s.handlers && s.handlers[u].pc.Serving? && u in s.chans
    ensures Inv(SetHandler(Call(s, u, G.CloseStart), u, Closing(|s.chans[u].calls|)))
  {
    hide ChanInv, CallsInv, HandlerInv, BcastInv;
    var s' := SetHandler(Call(s, u, G.CloseStart), u, Closing(|s.chans[u].calls|));
    ChanStep(s.chans[u], G.Begin(G.CloseStart));
    CloseHandlers(s, u);
    BcastsKept(s, s');
    CallsClosed(u, s.chans[u], s.bcasts);
  }

  lemma ChannelHandlers(s: State, u: Uuid, ch: G.Choice<nat>)
    requires Inv(s) && Step(s, Channel(u, ch)).Some?
    requires NoClose(s.chans[u]) ==> NoClose(Step(s, Channel(u, ch)).value.chans[u])
    requires Step(s, Channel(u, ch)).value.chans[u].written == s.chans[u].written
      + (if ch.Drain? && s.chans[u].writer.Writing? then [s.chans[u].writer.msg] else [])
    ensures var s' := Step(s, Channel(u, ch)).value;
      forall v :: v in s'.handlers ==> HandlerInv(s', v, s'.handlers[v])
  {
    hide ChanInv, CallsInv, BcastInv, NoClose, G.Step;
    var s' := Step(s, Channel(u, ch)).value;
    forall v | v in s'.handlers
      ensures HandlerInv(s', v, s'.handlers[v])
    {
      assert HandlerInv(s, v, s.handlers[v]);
    }
  }

  lemma ChannelInv(s: State, u: Uuid, ch: G.Choice<nat>)
    requires Inv(s) && Step(s, Channel(u, ch)).Some?
    ensures Inv(Step(s, Channel(u, ch)).value)
  {
    hide ChanInv, CallsInv, HandlerInv, BcastInv, G.Step, NoClose, ValOf;
    var s' := Step(s, Channel(u, ch)).value;
    var g, g' := s.chans[u], s'.chans[u];
    ChanStep(g, ch);
    CallsKept(g, ch);
    CallsMoved(u, g, g', s.bcasts);
    ChannelHandlers(s, u, ch);
    BcastsKept(s, s');
  }

  lemma OpenInv(s: State, u: Uuid, now: int)
    requires Inv(s) && u !in s.handlers
    ensures Inv(Step(s, Open(u, now)).value)
  {
    hide ChanInv, ValOf, NoClose, CallsInv;
    var s1 := Spawn(s, Message("system", Connect, u, now));
    AddBcastInv(s, Message("system", Connect, u, now));
    var s' := Step(s, Open(u, now)).value;
    forall c | 0 <= c < |s'.bcasts|
      ensures BcastInv(s', s'.bcasts[c])
    {
      assert BcastInv(s1, s1.bcasts[c]);
    }
    forall v | v in s'.handlers
      ensures HandlerInv(s', v, s'.handlers[v])
    {
      if v != u {
        assert HandlerInv(s1, v, s1.handlers[v]);
      }
    }
  }

  // The decoded message of a handler is of no consequence for the rest.
  lemma DecodeInv(s: State, u: Uuid, contents: string)
    requires Inv(s) && u in s.handlers
    ensures Inv(s.(handlers := s.handlers[u := s.handlers[u].(contents := contents)]))
  {
    hide ChanInv, ValOf, NoClose, CallsInv;
    var s' := s.(handlers := s.handlers[u := s.handlers[u].(contents := contents)]);
    forall c | 0 <= c < |s'.bcasts|
      ensures BcastInv(s', s'.bcasts[c])
    {
      assert BcastInv(s, s.bcasts[c]);
    }
    forall v | v in s'.handlers
      ensures HandlerInv(s', v, s'.handlers[v])
    {
      assert HandlerInv(s, v, s.handlers[v]);
    }
  }

  lemma ReceiveInv(s: State, u: Uuid, contents: Option<string>, now: int)
    requires Inv(s) && Step(s, ReceiveChat(u, contents, now)).Some?
    ensures Inv(Step(s, ReceiveChat(u, contents, now)).value)
  {
    hide Inv;
    var said := if contents.Some? then contents.value else s.handlers[u].contents;
    AddBcastInv(s, Message(u, Chat, said, now));
    DecodeInv(Spawn(s, Message(u, Chat, said, now)), u, said);
  }

  lemma HandleInv(s: State, u: Uuid)
    requires Inv(s) && u in s.handlers && HandlerStep(s, u).Some?
    ensures Inv(HandlerStep(s, u).value)
  {
    assert HandlerInv(s, u, s.handlers[u]);
    match s.handlers[u].pc
    case Announcing => SetHandlerInv(s, u, Greeting);
    case Greeting => GreetInv(s, u);
    case Storing => StoreInv(s, u);
    case Serving =>
    case Closing(t) => SetHandlerInv(s, u, Deleting);
    case Deleting => DeleteInv(s, u);
    case Left =>
  }

  lemma HangupInv(s: State, u: Uuid, now: int)
    requires Inv(s) && Step(s, Hangup(u, now)).Some?
    ensures Inv(Step(s, Hangup(u, now)).value)
  {
    hide Inv;
    AddBcastInv(s, Message("system", Disconnect, u, now));
    CloseInv(Spawn(s, Message("system", Disconnect, u, now)), u);
  }

  lemma StepInv(s: State, ch: Choice)
    requires Inv(s) && Step(s, ch).Some?
    ensures Inv(Step(s, ch).value)
  {
    hide ChanInv, CallsInv, BcastInv, HandlerInv, G.Step, HandlerStep, Inv;
    match ch
    case Open(u, now) => OpenInv(s, u, now);
    case Handle(u) => HandleInv(s, u);
    case ReceiveChat(u, contents, now) => ReceiveInv(s, u, contents, now);
    case Hangup(u, now) => HangupInv(s, u, now);
    case Start(b) => StartInv(s, b);
    case Visit(b, u) => VisitInv(s, b, u);
    case Return(b) => MoveInv(s, b, Ranging);
    case Finish(b) => MoveInv(s, b, Ended);
    case Channel(u, gch) => ChannelInv(s, u, gch);
  }

  lemma {:induction false} ExecInv(s: State, cs: seq<Choice>)
    requires Inv(s) && Exec(s, cs).Some?
    ensures Inv(Exec(s, cs).value)
    decreases |cs|
  {
    if cs != [] {
      StepInv(s, cs[0]);
      ExecInv(Step(s, cs[0]).value, cs[1..]);
    }
  }

  // ---------------------------------------------------------------- what no step undoes

  function Rank(pc: HandlerPc): nat {
    match pc
    case Announcing => 0
    case Greeting => 1
    case Storing => 2
    case Serving => 3
    case Closing(_) => 4
    case Deleting => 5
    case Left => 6
  }

  ghost predicate Begun(s: State, b: nat) {
    b < |s.bcasts| && !s.bcasts[b].pc.Spawned?
  }

  // Handlers move forward, broadcasts keep their starting keys, an ended broadcast visits
  // nothing more, and channels and their accepted values are never taken back.
  ghost predicate Later(s: State, s': State) {
    && (forall u :: u in s.handlers ==> u in s'.handlers && Rank(s.handlers[u].pc) <= Rank(s'.handlers[u].pc)
                                        && s.handlers[u].connect == s'.handlers[u].connect)
    && |s.bcasts| <= |s'.bcasts|
    && (forall b :: 0 <= b < |s.bcasts| ==>
          && (Begun(s, b) ==> Begun(s', b) && s'.bcasts[b].start == s.bcasts[b].start)
          && (s.bcasts[b].pc.Ended? ==> s'.bcasts[b].pc.Ended? && s'.bcasts[b].visited == s.bcasts[b].visited))
    && (forall u :: u in s.chans ==> u in s'.chans && s.chans[u].accepted <= s'.chans[u].accepted)
  }

  lemma AcceptedGrows(g: G.State<nat>, ch: G.Choice<nat>)
    requires ChanInv(g) && G.Step(g, ch).Some?
    ensures g.accepted <= G.Step(g, ch).value.accepted
  {
    if ch.Advance? {
      var c := G.AdvanceShape(g, ch.t);
    }
  }

  lemma NotYetThere(s: State, u: Uuid)
    requires Inv(s) && u in s.handlers && s.handlers[u].pc.Storing?
    ensures u !in s.chans
  {
    hide ChanInv, CallsInv, BcastInv, NoClose;
    assert HandlerInv(s, u, s.handlers[u]);
  }

  lemma StoreLater(s: State, u: Uuid)
    requires u in s.handlers && s.handlers[u].pc.Storing? && u !in s.chans
    ensures Later(s, SetHandler(Store(s, u), u, Serving))
  {
  }

  lemma DeleteLater(s: State, u: Uuid)
    requires u in s.handlers && s.handlers[u].pc.Deleting?
    ensures Later(s, SetHandler(Delete(s, u), u, Left))
  {
  }

  lemma HandleLater(s: State, u: Uuid)
    requires Inv(s) && u in s.handlers && HandlerStep(s, u).Some?
    ensures Later(s, HandlerStep(s, u).value)
  {
    hide Inv, Store, Delete;
    match s.handlers[u].pc
    case Storing =>
      NotYetThere(s, u);
      StoreLater(s, u);
    case Deleting => DeleteLater(s, u);
    case _ =>
  }

  lemma ChannelLater(s: State, u: Uuid, ch: G.Choice<nat>)
    requires Inv(s) && Step(s, Channel(u, ch)).Some?
    ensures Later(s, Step(s, Channel(u, ch)).value)
  {
    hide CallsInv, BcastInv, HandlerInv, HandlerStep, G.Step, G.Inv, G.SentInv;
    AcceptedGrows(s.chans[u], ch);
  }

  lemma CallLater(s: State, ch: Choice)
    requires (ch.Visit? || ch.Hangup?) && Step(s, ch).Some?
    ensures Later(s, Step(s, ch).value)
  {
  }

  lemma StepLater(s: State, ch: Choice)
    requires Inv(s) && Step(s, ch).Some?
    ensures Later(s, Step(s, ch).value)
  {
    hide Inv, HandlerStep, G.Step, Call;
    match ch
    case Handle(u) => HandleLater(s, u);
    case Channel(u, gch) => ChannelLater(s, u, gch);
    case Visit(_, _) => CallLater(s, ch);
    case Hangup(_, _) => CallLater(s, ch);
    case _ =>
  }

  lemma LaterTrans(s: State, s1: State, s2: State)
    requires Later(s, s1) && Later(s1, s2)
    ensures Later(s, s2)
  {
  }

  lemma {:induction false} ExecLater(s: State, cs: seq<Choice>)
    requires Inv(s) && Exec(s, cs).Some?
    ensures Later(s, Exec(s, cs).value)
    decreases |cs|
  {
    if cs != [] {
      hide Inv, Step, Later;
      StepInv(s, cs[0]);
      StepLater(s, cs[0]);
      ExecLater(Step(s, cs[0]).value, cs[1..]);
      LaterTrans(s, Step(s, cs[0]).value, Exec(s, cs).value);
    }
  }

  // A broadcast whose Range begins while a handler serves finds its key.
  lemma StepStart(s: State, ch: Choice, u: Uuid)
    requires Inv(s) && Step(s, ch).Some? && u in s.handlers && s.handlers[u].pc.Serving?
    ensures var s' := Step(s, ch).value;
      forall b: nat :: !Begun(s, b) && Begun(s', b) ==> u in s'.bcasts[b].start
  {
    hide ChanInv, CallsInv, BcastInv, NoClose, G.Step;
    assert HandlerInv(s, u, s.handlers[u]);
  }

  // Between two states in which a handler serves it serves.
  lemma ServesBetween(s: State, s1: State, s2: State, u: Uuid)
    requires Later(s, s1) && Later(s1, s2)
    requires u in s.handlers && s.handlers[u].pc.Serving? && u in s2.handlers && s2.handlers[u].pc.Serving?
    ensures u in s1.handlers && s1.handlers[u].pc.Serving?
    ensures forall b: nat :: Begun(s1, b) ==> Begun(s2, b) && s1.bcasts[b].start == s2.bcasts[b].start
  {
    assert Rank(s1.handlers[u].pc) == 3;
  }

  lemma {:induction false} ExecStart(s: State, cs: seq<Choice>, u: Uuid, b: nat)
    requires Inv(s) && Exec(s, cs).Some?
    requires u in s.handlers && s.handlers[u].pc.Serving?
    requires u in Exec(s, cs).value.handlers && Exec(s, cs).value.handlers[u].pc.Serving?
    requires !Begun(s, b) && Begun(Exec(s, cs).value, b)
    ensures u in Exec(s, cs).value.bcasts[b].start
    decreases |cs|
  {
    hide Inv, Step, Later, Begun;
    var s1 := Step(s, cs[0]).value;
    StepInv(s, cs[0]);
    StepLater(s, cs[0]);
    StepStart(s, cs[0], u);
    ExecLater(s1, cs[1..]);
    ServesBetween(s, s1, Exec(s, cs).value, u);
    if !Begun(s1, b) {
      ExecStart(s1, cs[1..], u, b);
    }
  }

  // ---------------------------------------------------------------- exactly-once delivery

  // No broadcast is accepted twice, and none that made no call is accepted at all.
  lemma AtMostOnce(s: State, u: Uuid, b: nat)
    requires Inv(s) && u in s.chans
    ensures multiset(s.chans[u].accepted)[b] <= 1
    ensures b >= |s.bcasts| || u !in s.bcasts[b].visited ==> multiset(s.chans[u].accepted)[b] == 0
  {
    var g := s.chans[u];
    assert ChanInv(g) && CallsInv(u, g, s.bcasts);
    assert G.SentInv(g, b);
    var w := G.SentWeight(b);
    if b < |s.bcasts| && u in s.bcasts[b].visited {
      SumOnly(g.calls, w, s.bcasts[b].visited[u]);
    } else {
      SumZero(g.calls, w);
    }
  }

  // An ended broadcast was accepted by a client it found at its start and that still serves.
  lemma AtLeastOnce(s: State, u: Uuid, b: nat)
    requires Inv(s) && u in s.handlers && s.handlers[u].pc.Serving?
    requires b < |s.bcasts| && s.bcasts[b].pc.Ended? && u in s.bcasts[b].start
    ensures u in s.chans && multiset(s.chans[u].accepted)[b] >= 1
  {
    assert HandlerInv(s, u, s.handlers[u]) && BcastInv(s, s.bcasts[b]);
    var g := s.chans[u];
    var t := s.bcasts[b].visited[u];
    assert ChanInv(g) && CallsInv(u, g, s.bcasts) && NoClose(g);
    SentWhenOpen(g, t);
    assert G.SentInv(g, b);
    if Sum(g.calls, G.SentWeight(b)) == 0 {
      SumZero(g.calls, G.SentWeight(b));
      assert false;
    }
  }

  // On a channel that nobody closes a Send that returned has enqueued its value.
  lemma SentWhenOpen(g: G.State<nat>, t: nat)
    requires G.Inv(g) && NoClose(g) && t < |g.calls| && g.calls[t].SendDone?
    ensures g.calls[t].sent && G.SentWeight(g.calls[t].val)(g.calls[t]) == 1
  {
    forall k | 0 <= k < |g.calls|
      ensures !G.Won(g.calls[k])
    {
      assert ValOf(g.calls[k]).Some?;
    }
  }

  /**
    A broadcast whose Range begins after the Store of a client, whenever it was spawned, and ends
    before its Close begins is accepted by that client's channel exactly once, and this stays so
    for ever.
   */
  lemma ExactlyOnce(
      before: seq<Choice>, s1: State, during: seq<Choice>, s2: State, after: seq<Choice>, s3: State, u: Uuid, b: nat)
    requires Exec(Init(), before) == Some(s1) && Exec(s1, during) == Some(s2) && Exec(s2, after) == Some(s3)
    requires u in s1.handlers && s1.handlers[u].pc.Serving?
    requires u in s2.handlers && s2.handlers[u].pc.Serving?
    requires !Begun(s1, b) && b < |s2.bcasts| && s2.bcasts[b].pc.Ended?
    ensures u in s3.chans && multiset(s3.chans[u].accepted)[b] == 1
  {
    hide Inv, Exec, Later;
    InitInv();
    ExecInv(Init(), before);
    ExecInv(s1, during);
    ExecInv(s2, after);
    ExecStart(s1, during, u, b);
    AtLeastOnce(s2, u, b);
    ExecLater(s2, after);
    AcceptedKept(s2, s3, u, b);
    AtMostOnce(s3, u, b);
  }

  lemma AcceptedKept(s: State, s': State, u: Uuid, b: nat)
    requires Later(s, s') && u in s.chans
    ensures u in s'.chans && multiset(s.chans[u].accepted)[b] <= multiset(s'.chans[u].accepted)[b]
  {
    var a, a' := s.chans[u].accepted, s'.chans[u].accepted;
    assert a' == a + a'[|a|..];
  }

  // ---------------------------------------------------------------- the own connect

  // The broadcast of the own connect ends before the client is stored, and so misses it.
  ghost predicate OwnInv(s: State) {
    forall u :: u in s.handlers && s.handlers[u].connect < |s.bcasts| && !s.handlers[u].pc.Announcing? ==>
      s.bcasts[s.handlers[u].connect].pc.Ended? && u !in s.bcasts[s.handlers[u].connect].visited
  }

  lemma OwnStep(s: State, ch: Choice)
    requires Inv(s) && OwnInv(s) && Step(s, ch).Some?
    ensures OwnInv(Step(s, ch).value)
  {
    StepLater(s, ch);
    var s' := Step(s, ch).value;
    forall u | u in s'.handlers && s'.handlers[u].connect < |s'.bcasts| && !s'.handlers[u].pc.Announcing?
      ensures var b := s'.handlers[u].connect; s'.bcasts[b].pc.Ended? && u !in s'.bcasts[b].visited
    {
      OwnStepFor(s, ch, u);
    }
  }

  lemma NotVisited(s: State, u: Uuid)
    requires Inv(s) && u in s.handlers && s.handlers[u].pc.Announcing?
    ensures var b := s.handlers[u].connect; b < |s.bcasts| && u !in s.bcasts[b].visited
  {
    hide ChanInv, CallsInv, NoClose;
    assert HandlerInv(s, u, s.handlers[u]);
    assert BcastInv(s, s.bcasts[s.handlers[u].connect]);
  }

  // A handler goes on from the broadcast of its connect once that has ended.
  lemma Announced(s: State, ch: Choice, u: Uuid)
    requires Step(s, ch).Some?
    requires var s' := Step(s, ch).value; u in s'.handlers && !s'.handlers[u].pc.Announcing?
    ensures u in s.handlers
    ensures s.handlers[u].pc.Announcing? ==>
      s.handlers[u].connect < |s.bcasts| && s.bcasts[s.handlers[u].connect].pc.Ended?
  {
    hide G.Step;
  }

  lemma OwnStepFor(s: State, ch: Choice, u: Uuid)
    requires Inv(s) && OwnInv(s) && Step(s, ch).Some? && Later(s, Step(s, ch).value)
    requires var s' := Step(s, ch).value; u in s'.handlers && !s'.handlers[u].pc.Announcing?
    ensures var s' := Step(s, ch).value;
      var b := s'.handlers[u].connect;
      b < |s'.bcasts| && s'.bcasts[b].pc.Ended? && u !in s'.bcasts[b].visited
  {
    hide Step, Inv;
    Announced(s, ch, u);
    if s.handlers[u].pc.Announcing? {
      NotVisited(s, u);
    } else {
      ConnectKnown(s, u);
    }
  }

  lemma ConnectKnown(s: State, u: Uuid)
    requires Inv(s) && u in s.handlers
    ensures s.handlers[u].connect < |s.bcasts|
  {
    hide ChanInv, CallsInv, NoClose, BcastInv;
    assert HandlerInv(s, u, s.handlers[u]);
  }

  lemma {:induction false} ExecOwn(s: State, cs: seq<Choice>)
    requires Inv(s) && OwnInv(s) && Exec(s, cs).Some?
    ensures OwnInv(Exec(s, cs).value)
    decreases |cs|
  {
    if cs != [] {
      StepInv(s, cs[0]);
      OwnStep(s, cs[0]);
      hide Inv, OwnInv, Step;
      ExecOwn(Step(s, cs[0]).value, cs[1..]);
    }
  }

  lemma OnSocket(s: State, u: Uuid)
    requires Inv(s) && u in s.sockets
    ensures u in s.handlers && s.handlers[u].connect < |s.bcasts| && !s.handlers[u].pc.Announcing?
    ensures s.sockets[u] == [s.handlers[u].connect] + (if u in s.chans then s.chans[u].written else [])
    ensures u in s.chans ==> G.OrderInv(s.chans[u])
  {
    hide CallsInv, BcastInv, NoClose;
    assert HandlerInv(s, u, s.handlers[u]);
  }

  // A value that the channel never accepted was never written from it.
  lemma WrittenFromAccepted(g: G.State<nat>, b: nat)
    requires G.OrderInv(g) && multiset(g.accepted)[b] == 0
    ensures multiset(g.written)[b] == 0
  {
    assert g.accepted == g.written + (G.Hand(g.writer) + g.chan.buffer);
    assert multiset(g.accepted) == multiset(g.written) + multiset(G.Hand(g.writer) + g.chan.buffer);
  }

  /**
    The first write on a client's socket is its own connect, which is written there only that
    once. What follows on the socket are the values its channel accepted, in order, of which
    those in the writer's hand and in the buffer are still to come.
   */
  lemma FirstWrite(cs: seq<Choice>, s: State, u: Uuid)
    requires Exec(Init(), cs) == Some(s) && u in s.sockets
    ensures u in s.handlers && s.sockets[u] != [] && s.sockets[u][0] == s.handlers[u].connect
    ensures multiset(s.sockets[u])[s.handlers[u].connect] == 1
    ensures u in s.chans ==>
              s.sockets[u] + G.Hand(s.chans[u].writer) + s.chans[u].chan.buffer ==
                [s.handlers[u].connect] + s.chans[u].accepted
  {
    hide Inv, Exec;
    InitInv();
    ExecInv(Init(), cs);
    ExecOwn(Init(), cs);
    OnSocket(s, u);
    var c := s.handlers[u].connect;
    if u in s.chans {
      var g := s.chans[u];
      AtMostOnce(s, u, c);
      WrittenFromAccepted(g, c);
      assert s.sockets[u] == [c] + g.written;
      assert multiset(s.sockets[u]) == multiset{c} + multiset(g.written);
    }
  }
}
