/**
  Why the room of the Go server (wschat-go/main.go) never gets stuck, and always comes to rest
  when its clients leave it alone.
 */
module GoProgress {
  import opened Options
  import opened Sums
  import opened GoRoom
  import G = GoChannel

  // ---------------------------------------------------------------- progress

  // Every channel has its capacity, and a closing handler waits for its own Close call.
  ghost predicate LiveInv(s: State) {
    && (forall u :: u in s.chans ==> s.chans[u].chan.cap == CAPACITY)
    && (forall u :: u in s.handlers && s.handlers[u].pc.Closing? ==>
          u in s.chans && ClosesAt(s.chans[u].calls, s.handlers[u].pc.t))
  }

  ghost predicate ClosesAt(calls: seq<G.Call<nat>>, t: nat) {
    t < |calls| && ValOf(calls[t]).None?
  }

  lemma InitLive()
    ensures LiveInv(Init())
  {
  }

  lemma ChannelLive(s: State, u: Uuid, ch: G.Choice<nat>)
    requires Inv(s) && LiveInv(s) && Step(s, Channel(u, ch)).Some?
    ensures LiveInv(Step(s, Channel(u, ch)).value)
  {
    hide ValOf, G.Step, HandlerInv, BcastInv, CallsInv, G.Inv, G.SentInv;
    CallsKept(s.chans[u], ch);
    CapKept(s.chans[u], ch);
  }

  lemma CapKept(g: G.State<nat>, ch: G.Choice<nat>)
    requires G.Step(g, ch).Some?
    ensures G.Step(g, ch).value.chan.cap == g.chan.cap
  {
  }

  lemma CallLive(s: State, ch: Choice)
    requires LiveInv(s) && (ch.Visit? || ch.Hangup?) && Step(s, ch).Some?
    ensures LiveInv(Step(s, ch).value)
  {
  }

  lemma HandleLive(s: State, u: Uuid)
    requires LiveInv(s) && u in s.handlers && HandlerStep(s, u).Some?
    requires s.handlers[u].pc.Storing? ==> u !in s.chans
    ensures LiveInv(HandlerStep(s, u).value)
  {
    hide ClosesAt;
  }

  lemma StepLive(s: State, ch: Choice)
    requires Inv(s) && LiveInv(s) && Step(s, ch).Some?
    ensures LiveInv(Step(s, ch).value)
  {
    hide Inv, HandlerStep, G.Step, Call, ClosesAt;
    match ch
    case Channel(u, gch) => ChannelLive(s, u, gch);
    case Handle(u) =>
      if s.handlers[u].pc.Storing? {
        NotYetThere(s, u);
      }
      HandleLive(s, u);
    case Visit(_, _) => CallLive(s, ch);
    case Hangup(_, _) => CallLive(s, ch);
    case _ =>
  }

  lemma {:induction false} ExecLive(s: State, cs: seq<Choice>)
    requires Inv(s) && LiveInv(s) && Exec(s, cs).Some?
    ensures LiveInv(Exec(s, cs).value)
    decreases |cs|
  {
    if cs != [] {
      hide Inv, Step, LiveInv;
      StepInv(s, cs[0]);
      StepLive(s, cs[0]);
      ExecLive(Step(s, cs[0]).value, cs[1..]);
    }
  }

  // What the server does by itself, without a client connecting, speaking or hanging up.
  predicate Internal(ch: Choice) {
    !ch.Open? && !ch.ReceiveChat? && !ch.Hangup?
  }

  ghost predicate CanMove(s: State, ch: Choice) {
    Internal(ch) && Step(s, ch).Some?
  }

  lemma ClientFacts(s: State, u: Uuid)
    requires Inv(s) && u in s.chans
    ensures u in s.sockets && ChanInv(s.chans[u]) && CallsInv(u, s.chans[u], s.bcasts)
  {
    hide ChanInv, CallsInv, BcastInv, NoClose;
    assert HandlerInv(s, u, s.handlers[u]);
  }

  // While a call on a channel has not returned, something on the channel can move.
  lemma ChannelMoves(s: State, u: Uuid, t: nat) returns (ch: Choice)
    requires Inv(s) && LiveInv(s) && u in s.chans
    requires t < |s.chans[u].calls| && !G.IsDone(s.chans[u].calls[t])
    ensures CanMove(s, ch)
  {
    hide Inv, CallsInv, G.Step, G.Inv;
    ClientFacts(s, u);
    assert !G.AllDone(s.chans[u]);
    var gch := G.Progress(s.chans[u]);
    ch := Channel(u, gch);
  }

  lemma BcastMoves(s: State, b: nat) returns (ch: Choice)
    requires Inv(s) && LiveInv(s) && b < |s.bcasts| && !s.bcasts[b].pc.Ended?
    ensures CanMove(s, ch)
  {
    hide LiveInv, ChanInv, CallsInv, HandlerInv, G.Step, HandlerStep;
    var bc := s.bcasts[b];
    assert BcastInv(s, bc);
    match bc.pc {
      case Spawned => ch := Start(b);
      case Ranging =>
        if bc.due <= bc.visited.Keys {
          ch := Finish(b);
        } else {
          var u :| u in bc.due && u !in bc.visited;
          ch := Visit(b, u);
        }
      case Sending(u) => ch := SendMoves(s, b, u);
    }
  }

  lemma SendMoves(s: State, b: nat, u: Uuid) returns (ch: Choice)
    requires Inv(s) && LiveInv(s) && b < |s.bcasts| && s.bcasts[b].pc == Sending(u)
    ensures CanMove(s, ch)
  {
    hide LiveInv, ChanInv, HandlerInv, G.Step, HandlerStep;
    assert BcastInv(s, s.bcasts[b]);
    ClientFacts(s, u);
    var t := s.bcasts[b].visited[u];
    if s.chans[u].calls[t].SendDone? {
      ch := Return(b);
    } else {
      assert ValOf(s.chans[u].calls[t]) == Some(b);
      ch := ChannelMoves(s, u, t);
    }
  }

  lemma HandlerMoves(s: State, u: Uuid) returns (ch: Choice)
    requires Inv(s) && LiveInv(s) && u in s.handlers && !s.handlers[u].pc.Serving? && !s.handlers[u].pc.Left?
    ensures CanMove(s, ch)
  {
    hide Inv, Store, Delete, G.Step;
    ConnectKnown(s, u);
    var h := s.handlers[u];
    if h.pc.Announcing? && !s.bcasts[h.connect].pc.Ended? {
      ch := BcastMoves(s, h.connect);
    } else if h.pc.Closing? && !s.chans[u].calls[h.pc.t].CloseDone? {
      ch := ChannelMoves(s, u, h.pc.t);
    } else {
      ch := Handle(u);
    }
  }

  // A broadcast has not ended, a handler is neither in its receive loop nor gone, or a call on
  // some channel has not returned.
  ghost predicate Unfinished(s: State) {
    || (exists b :: 0 <= b < |s.bcasts| && !s.bcasts[b].pc.Ended?)
    || (exists u :: u in s.handlers && !s.handlers[u].pc.Serving? && !s.handlers[u].pc.Left?)
    || (exists u :: u in s.chans && !G.AllDone(s.chans[u]))
  }

  lemma SomethingMoves(s: State) returns (ch: Choice)
    requires Inv(s) && LiveInv(s) && Unfinished(s)
    ensures CanMove(s, ch)
  {
    hide Inv, CanMove;
    if b: nat :| b < |s.bcasts| && !s.bcasts[b].pc.Ended? {
      ch := BcastMoves(s, b);
    } else if u :| u in s.handlers && !s.handlers[u].pc.Serving? && !s.handlers[u].pc.Left? {
      ch := HandlerMoves(s, u);
    } else {
      var u :| u in s.chans && !G.AllDone(s.chans[u]);
      var t: nat :| t < |s.chans[u].calls| && !G.IsDone(s.chans[u].calls[t]);
      ch := ChannelMoves(s, u, t);
    }
  }

  /**
    No reachable state of the room is a deadlock: while anything is unfinished the server can move
    without waiting for any client.
   */
  lemma Progress(cs: seq<Choice>, s: State) returns (ch: Choice)
    requires Exec(Init(), cs) == Some(s) && Unfinished(s)
    ensures CanMove(s, ch)
  {
    hide Inv, LiveInv, Exec, CanMove, Unfinished;
    InitInv();
    InitLive();
    ExecInv(Init(), cs);
    ExecLive(Init(), cs);
    ch := SomethingMoves(s);
  }

  // ---------------------------------------------------------------- every burst of work ends

  // What is left of a broadcast: a visit pays for the six actions of the Send call it makes.
  function BcastWeight(all: set<Uuid>): Bcast -> nat {
    (bc: Bcast) =>
      match bc.pc
      case Spawned => 2 + 9 * |all|
      case Ranging => 1 + 9 * |all - bc.visited.Keys|
      case Sending(_) => 2 + 9 * |all - bc.visited.Keys|
      case Ended => 0
  }

  function HandlerWeight(h: Handler): nat {
    match h.pc
    case Announcing => 4
    case Greeting => 3
    case Storing => 2
    case Serving => 0
    case Closing(_) => 2
    case Deleting => 1
    case Left => 0
  }

  function ChannelWeight(g: G.State<nat>): nat {
    G.Measure(g)
  }

  ghost function Measure(all: set<Uuid>, s: State): nat {
    Sum(s.bcasts, BcastWeight(all)) + MapSum(s.handlers, HandlerWeight) + MapSum(s.chans, ChannelWeight)
  }

  lemma BcastChange(all: set<Uuid>, s: State, b: nat, bc: Bcast)
    requires b < |s.bcasts|
    ensures Measure(all, SetBcast(s, b, bc)) + BcastWeight(all)(s.bcasts[b]) == Measure(all, s) + BcastWeight(all)(bc)
  {
    hide BcastWeight, ChannelWeight, HandlerWeight;
    SumUpdate(s.bcasts, BcastWeight(all), b, bc);
  }

  lemma HandlerDrops(all: set<Uuid>, s: State, u: Uuid, pc: HandlerPc)
    requires u in s.handlers && HandlerWeight(s.handlers[u].(pc := pc)) < HandlerWeight(s.handlers[u])
    ensures Measure(all, SetHandler(s, u, pc)) < Measure(all, s)
  {
    hide BcastWeight, ChannelWeight, HandlerWeight;
    MapSumUpdate(s.handlers, HandlerWeight, u, s.handlers[u].(pc := pc));
  }

  lemma StoreMeasure(all: set<Uuid>, s: State, u: Uuid)
    requires u !in s.chans
    ensures Measure(all, Store(s, u)) == Measure(all, s) + 1
  {
    hide HandlerWeight;
    SumSame(Store(s, u).bcasts, s.bcasts, BcastWeight(all));
    MapSumUpdate(s.chans, ChannelWeight, u, G.Init(CAPACITY));
  }

  lemma DeleteMeasure(all: set<Uuid>, s: State, u: Uuid)
    ensures Measure(all, Delete(s, u)) == Measure(all, s)
  {
    hide HandlerWeight, ChannelWeight;
    SumSame(Delete(s, u).bcasts, s.bcasts, BcastWeight(all));
  }

  lemma StoreStepDrops(all: set<Uuid>, s: State, u: Uuid)
    requires u in s.handlers && s.handlers[u].pc.Storing? && u !in s.chans
    ensures Measure(all, SetHandler(Store(s, u), u, Serving)) < Measure(all, s)
  {
    hide BcastWeight, ChannelWeight;
    StoreMeasure(all, s, u);
    MapSumUpdate(s.handlers, HandlerWeight, u, s.handlers[u].(pc := Serving));
  }

  lemma HandleDrops(all: set<Uuid>, s: State, u: Uuid)
    requires Inv(s) && u in s.handlers && HandlerStep(s, u).Some?
    ensures Measure(all, HandlerStep(s, u).value) < Measure(all, s)
  {
    hide Inv, Measure, Store, Delete;
    match s.handlers[u].pc
    case Announcing => HandlerDrops(all, s, u, Greeting);
    case Greeting =>
      HandlerDrops(all, s, u, Storing);
      SocketsDoNotCount(all, SetHandler(s, u, Storing), s.sockets[u := [s.handlers[u].connect]]);
    case Storing =>
      NotYetThere(s, u);
      StoreStepDrops(all, s, u);
    case Closing(_) => HandlerDrops(all, s, u, Deleting);
    case Deleting =>
      DeleteMeasure(all, s, u);
      DeleteKeepsHandlers(s, u);
      HandlerDrops(all, Delete(s, u), u, Left);
  }

  lemma DeleteKeepsHandlers(s: State, u: Uuid)
    ensures Delete(s, u).handlers == s.handlers
  {
  }

  lemma SocketsDoNotCount(all: set<Uuid>, s: State, sockets: map<Uuid, seq<nat>>)
    ensures Measure(all, s.(sockets := sockets)) == Measure(all, s)
  {
  }

  lemma CallMeasure(all: set<Uuid>, s: State, u: Uuid, b: nat)
    requires u in s.chans
    ensures Measure(all, Call(s, u, G.SendStart(b))) == Measure(all, s) + 6
  {
    hide BcastWeight, HandlerWeight;
    var g := s.chans[u];
    var g' := g.(calls := g.calls + [G.SendStart(b)]);
    SumAppend(g.calls, G.Rank, G.SendStart(b));
    MapSumUpdate(s.chans, ChannelWeight, u, g');
  }

  // One more key visited.
  lemma VisitWeight(all: set<Uuid>, bc: Bcast, u: Uuid, t: nat)
    requires bc.pc.Ranging? && u in all && u !in bc.visited
    ensures BcastWeight(all)(bc.(pc := Sending(u), visited := bc.visited[u := t])) + 6 < BcastWeight(all)(bc)
  {
    assert all - bc.visited[u := t].Keys == (all - bc.visited.Keys) - {u};
  }

  lemma VisitDrops(all: set<Uuid>, s: State, b: nat, u: Uuid)
    requires Step(s, Visit(b, u)).Some? && u in all
    ensures Measure(all, Step(s, Visit(b, u)).value) < Measure(all, s)
  {
    hide Measure, BcastWeight;
    var bc, t := s.bcasts[b], |s.chans[u].calls|;
    CallMeasure(all, s, u, b);
    VisitWeight(all, bc, u, t);
    BcastChange(all, Call(s, u, G.SendStart(b)), b, bc.(pc := Sending(u), visited := bc.visited[u := t]));
  }

  lemma MoveDrops(all: set<Uuid>, s: State, b: nat, pc: BcastPc)
    requires b < |s.bcasts|
    requires (s.bcasts[b].pc.Sending? && pc.Ranging?) || (s.bcasts[b].pc.Ranging? && pc.Ended?)
    ensures Measure(all, SetBcast(s, b, s.bcasts[b].(pc := pc))) < Measure(all, s)
  {
    hide Measure;
    BcastChange(all, s, b, s.bcasts[b].(pc := pc));
  }

  lemma ChannelDrops(all: set<Uuid>, s: State, u: Uuid, ch: G.Choice<nat>)
    requires Inv(s) && Step(s, Channel(u, ch)).Some?
    ensures Measure(all, Step(s, Channel(u, ch)).value) < Measure(all, s)
  {
    hide Inv, G.Step, G.Inv, G.Measure, BcastWeight, HandlerWeight, CallsInv;
    ClientFacts(s, u);
    var g := s.chans[u];
    G.MeasureDrops(g, ch);
    MapSumUpdate(s.chans, ChannelWeight, u, G.Step(g, ch).value);
  }

  lemma StartDrops(all: set<Uuid>, s: State, b: nat)
    requires b < |s.bcasts| && s.bcasts[b].pc.Spawned?
    ensures Measure(all, SetBcast(s, b, Ranged(s, b))) < Measure(all, s)
  {
    hide Measure;
    assert all - Ranged(s, b).visited.Keys == all;
    BcastChange(all, s, b, Ranged(s, b));
  }

  lemma HandlersKept(s: State, ch: Choice)
    requires CanMove(s, ch)
    ensures Step(s, ch).value.handlers.Keys == s.handlers.Keys
  {
    hide G.Step;
  }

  lemma StepDrops(s: State, ch: Choice)
    requires Inv(s) && CanMove(s, ch)
    ensures Measure(s.handlers.Keys, Step(s, ch).value) < Measure(s.handlers.Keys, s)
  {
    hide Measure, G.Step, Inv, HandlerStep;
    var all := s.handlers.Keys;
    match ch
    case Handle(u) => HandleDrops(all, s, u);
    case Start(b) => StartDrops(all, s, b);
    case Visit(b, u) =>
      ChannelOwner(s, u);
      VisitDrops(all, s, b, u);
    case Return(b) => MoveDrops(all, s, b, Ranging);
    case Finish(b) => MoveDrops(all, s, b, Ended);
    case Channel(u, gch) => ChannelDrops(all, s, u, gch);
  }

  lemma ChannelOwner(s: State, u: Uuid)
    requires Inv(s) && u in s.chans
    ensures u in s.handlers
  {
  }

  lemma {:induction false} RunBound(s: State, cs: seq<Choice>)
    requires Inv(s) && Exec(s, cs).Some? && forall i :: 0 <= i < |cs| ==> Internal(cs[i])
    ensures |cs| + Measure(s.handlers.Keys, Exec(s, cs).value) <= Measure(s.handlers.Keys, s)
    decreases |cs|
  {
    hide Inv, Step, Measure;
    if cs != [] {
      StepInv(s, cs[0]);
      StepDrops(s, cs[0]);
      HandlersKept(s, cs[0]);
      RunBound(Step(s, cs[0]).value, cs[1..]);
    }
  }

  /**
    Left alone by its clients the room settles: from every reachable state it takes only so many
    actions, and when it can take no more every broadcast has ended, every handler is in its
    receive loop or gone, and every call on every channel has returned.
   */
  lemma Settles(before: seq<Choice>, s: State, cs: seq<Choice>, s': State)
    requires Exec(Init(), before) == Some(s) && Exec(s, cs) == Some(s')
    requires forall i :: 0 <= i < |cs| ==> Internal(cs[i])
    ensures |cs| <= Measure(s.handlers.Keys, s)
    ensures (forall ch :: !CanMove(s', ch)) ==>
      && (forall b :: 0 <= b < |s'.bcasts| ==> s'.bcasts[b].pc.Ended?)
      && (forall u :: u in s'.handlers ==> s'.handlers[u].pc.Serving? || s'.handlers[u].pc.Left?)
      && (forall u :: u in s'.chans ==> G.AllDone(s'.chans[u]))
  {
    hide Inv, LiveInv, Exec, CanMove, Measure, Internal, G.AllDone;
    InitInv();
    InitLive();
    ExecInv(Init(), before);
    ExecLive(Init(), before);
    RunBound(s, cs);
    ExecInv(s, cs);
    ExecLive(s, cs);
    if ch :| CanMove(s', ch) {
    } else if Unfinished(s') {
      var ch := SomethingMoves(s');
      assert false;
    }
  }
}
