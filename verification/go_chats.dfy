/**
  What the Go server (wschat-go/main.go) announces, and to whom it gets. The theorems speak about
  the choices that a run was made of: who connected, said what and hung up, in which order.
 */
module GoChats {
  import opened Messages
  import opened Options
  import opened GoRoom
  import opened GoProgress
  import G = GoChannel

  // ---------------------------------------------------------------- what is announced

  // A text of the user in which the field contents is present.
  predicate Gives(ch: Choice, u: Uuid) {
    ch.ReceiveChat? && ch.u == u && ch.contents.Some?
  }

  // The contents that a chat of the user has when its text has none: those of the user's latest
  // text that had some, or else those of the connect message, which is the uuid.
  function Latest(cs: seq<Choice>, u: Uuid): string {
    if cs == [] then u
    else if Gives(cs[|cs| - 1], u) then cs[|cs| - 1].contents.value
    else Latest(cs[..|cs| - 1], u)
  }

  // The message that the last choice makes the server broadcast.
  function LastAnnounced(cs: seq<Choice>): seq<Message>
    requires cs != []
  {
    match cs[|cs| - 1]
    case Open(u, now) => [Message("system", Connect, u, now)]
    case ReceiveChat(u, _, now) => [Message(u, Chat, Latest(cs, u), now)]
    case Hangup(u, now) => [Message("system", Disconnect, u, now)]
    case _ => []
  }

  function Announced(cs: seq<Choice>): seq<Message> {
    if cs == [] then [] else Announced(cs[..|cs| - 1]) + LastAnnounced(cs)
  }

  ghost predicate Carries(s: State, msgs: seq<Message>) {
    |s.bcasts| == |msgs| && forall b :: 0 <= b < |msgs| ==> s.bcasts[b].msg == msgs[b]
  }

  ghost predicate Decoded(s: State, cs: seq<Choice>) {
    forall u :: u in s.handlers ==> s.handlers[u].contents == Latest(cs, u)
  }

  lemma {:induction false} ExecLast(s: State, cs: seq<Choice>)
    requires cs != [] && Exec(s, cs).Some?
    ensures Exec(s, cs[..|cs| - 1]).Some? && Step(Exec(s, cs[..|cs| - 1]).value, cs[|cs| - 1]) == Exec(s, cs)
    decreases |cs|
  {
    hide Step;
    if |cs| > 1 {
      assert cs[1..][..|cs| - 2] == cs[..|cs| - 1][1..];
      ExecLast(Step(s, cs[0]).value, cs[1..]);
    }
  }

  lemma MsgsKept(s: State, ch: Choice, msgs: seq<Message>)
    requires Step(s, ch).Some? && !ch.Open? && !ch.ReceiveChat? && !ch.Hangup? && Carries(s, msgs)
    ensures Carries(Step(s, ch).value, msgs)
  {
    hide G.Step;
  }

  lemma ContentsKept(s: State, ch: Choice, u: Uuid)
    requires Step(s, ch).Some? && u in Step(s, ch).value.handlers
    ensures Step(s, ch).value.handlers[u].contents ==
      if Gives(ch, u) then ch.contents.value else if u in s.handlers then s.handlers[u].contents else u
  {
    hide G.Step, Store, Delete;
    if ch.Handle? && ch.u in s.handlers {
      HandleKeeps(s, ch.u);
    }
  }

  lemma HandleKeeps(s: State, u: Uuid)
    requires u in s.handlers && HandlerStep(s, u).Some?
    ensures var s' := HandlerStep(s, u).value;
      s'.handlers == s.handlers[u := s.handlers[u].(pc := s'.handlers[u].pc)]
  {
  }

  lemma {:induction false} OpensFirst(cs: seq<Choice>, s: State, u: Uuid)
    requires Exec(Init(), cs) == Some(s) && u !in s.handlers
    ensures Latest(cs, u) == u
    decreases |cs|
  {
    hide Exec;
    if cs != [] {
      var n := |cs| - 1;
      ExecLast(Init(), cs);
      var s0 := Exec(Init(), cs[..n]).value;
      NotYetOpen(s0, cs[n], u);
      OpensFirst(cs[..n], s0, u);
    }
  }

  lemma NotYetOpen(s: State, ch: Choice, u: Uuid)
    requires Step(s, ch).Some? && u !in Step(s, ch).value.handlers
    ensures u !in s.handlers && !Gives(ch, u)
  {
    hide G.Step, Store, Delete;
    if ch.Handle? && ch.u in s.handlers {
      HandleKeeps(s, ch.u);
    }
  }

  lemma NewMsg(s: State, ch: Choice, cs: seq<Choice>)
    requires Step(s, ch).Some? && cs != [] && cs[|cs| - 1] == ch && Decoded(s, cs[..|cs| - 1])
    requires ch.Open? || ch.ReceiveChat? || ch.Hangup?
    ensures var s' := Step(s, ch).value;
      && |s'.bcasts| == |s.bcasts| + 1 && [s'.bcasts[|s.bcasts|].msg] == LastAnnounced(cs)
      && forall b :: 0 <= b < |s.bcasts| ==> s'.bcasts[b].msg == s.bcasts[b].msg
  {
  }

  /**
    Everything announced is broadcast, and nothing else. In every run there is one broadcast for
    each client that connected, each text a client sent and each client that hung up, in this
    order, and it carries the system's connect, the user's chat or the system's disconnect.
   */
  lemma {:induction false} BroadcastsAreAnnounced(cs: seq<Choice>, s: State)
    requires Exec(Init(), cs) == Some(s)
    ensures |s.bcasts| == |Announced(cs)|
    ensures forall b :: 0 <= b < |s.bcasts| ==> s.bcasts[b].msg == Announced(cs)[b]
    ensures forall u :: u in s.handlers ==> s.handlers[u].contents == Latest(cs, u)
    decreases |cs|
  {
    hide Exec, Step, Latest, LastAnnounced;
    if cs == [] {
      NothingYet(s);
    } else {
      var n := |cs| - 1;
      ExecLast(Init(), cs);
      var s0 := Exec(Init(), cs[..n]).value;
      BroadcastsAreAnnounced(cs[..n], s0);
      AnnounceStep(cs, s0, s);
    }
  }

  lemma NothingYet(s: State)
    requires Exec(Init(), []) == Some(s)
    ensures s.bcasts == [] && s.handlers == map[]
  {
  }

  lemma AnnounceStep(cs: seq<Choice>, s0: State, s: State)
    requires cs != [] && Exec(Init(), cs[..|cs| - 1]) == Some(s0) && Step(s0, cs[|cs| - 1]) == Some(s)
    requires Carries(s0, Announced(cs[..|cs| - 1])) && Decoded(s0, cs[..|cs| - 1])
    ensures Carries(s, Announced(cs)) && Decoded(s, cs)
  {
    hide Exec, Step, LastAnnounced, Announced, Carries, Decoded;
    MsgsStep(cs, s0, s);
    DecodeStep(cs, s0, s);
  }

  lemma MsgsStep(cs: seq<Choice>, s0: State, s: State)
    requires cs != [] && Step(s0, cs[|cs| - 1]) == Some(s)
    requires Carries(s0, Announced(cs[..|cs| - 1])) && Decoded(s0, cs[..|cs| - 1])
    ensures Carries(s, Announced(cs))
  {
    hide Step, LastAnnounced, Decoded, Carries;
    var ch := cs[|cs| - 1];
    if ch.Open? || ch.ReceiveChat? || ch.Hangup? {
      NewMsg(s0, ch, cs);
      CarriesMore(s0, s, Announced(cs[..|cs| - 1]), LastAnnounced(cs)[0]);
    } else {
      MsgsKept(s0, ch, Announced(cs[..|cs| - 1]));
      QuietChoice(cs);
      assert Announced(cs) == Announced(cs[..|cs| - 1]);
    }
  }

  lemma CarriesMore(s0: State, s: State, msgs: seq<Message>, msg: Message)
    requires Carries(s0, msgs) && |s.bcasts| == |s0.bcasts| + 1 && s.bcasts[|s0.bcasts|].msg == msg
    requires forall b :: 0 <= b < |s0.bcasts| ==> s.bcasts[b].msg == s0.bcasts[b].msg
    ensures Carries(s, msgs + [msg])
  {
  }

  lemma DecodeStep(cs: seq<Choice>, s0: State, s: State)
    requires cs != [] && Exec(Init(), cs[..|cs| - 1]) == Some(s0) && Step(s0, cs[|cs| - 1]) == Some(s)
    requires Decoded(s0, cs[..|cs| - 1])
    ensures Decoded(s, cs)
  {
    hide Exec, Step;
    forall u | u in s.handlers
      ensures s.handlers[u].contents == Latest(cs, u)
    {
      ContentsKept(s0, cs[|cs| - 1], u);
      if u !in s0.handlers {
        OpensFirst(cs[..|cs| - 1], s0, u);
      }
    }
  }

  lemma QuietChoice(cs: seq<Choice>)
    requires cs != [] && !cs[|cs| - 1].Open? && !cs[|cs| - 1].ReceiveChat? && !cs[|cs| - 1].Hangup?
    ensures LastAnnounced(cs) == []
  {
  }

  // ---------------------------------------------------------------- which contents

  lemma {:induction false} LatestIs(cs: seq<Choice>, u: Uuid) returns (k: int)
    ensures -1 <= k < |cs|
    ensures if k == -1 then Latest(cs, u) == u else Gives(cs[k], u) && cs[k].contents.value == Latest(cs, u)
    ensures forall l :: k < l < |cs| ==> !Gives(cs[l], u)
  {
    if cs == [] {
      k := -1;
    } else if Gives(cs[|cs| - 1], u) {
      k := |cs| - 1;
    } else {
      k := LatestIs(cs[..|cs| - 1], u);
    }
  }

  /**
    Exactly when a chat is broadcast with the contents of its own text, where a missing field counts
    as empty: when the field is there, or when what the user's latest text before it had, or the
    uuid if none had any, is empty.
   */
  lemma ContentsRightIff(cs: seq<Choice>, s: State, i: nat)
    requires Exec(Init(), cs) == Some(s) && i < |cs| && cs[i].ReceiveChat?
    ensures var ch, b := cs[i], |Announced(cs[..i])|;
      && b < |s.bcasts|
      && s.bcasts[b].msg.sender == ch.u && s.bcasts[b].msg.action == Chat && s.bcasts[b].msg.timestamp == ch.now
      && (s.bcasts[b].msg.contents == (if ch.contents.Some? then ch.contents.value else "")
          <==> ch.contents.Some? || Latest(cs[..i], ch.u) == "")
  {
    BroadcastsAreAnnounced(cs, s);
    AnnouncedAt(cs, i);
    assert cs[..i + 1][..i] == cs[..i];
  }

  // Where the announcement of one choice stands.
  lemma {:induction false} AnnouncedAt(cs: seq<Choice>, i: nat)
    requires i < |cs|
    ensures Announced(cs[..i]) + LastAnnounced(cs[..i + 1]) <= Announced(cs)
    decreases |cs|
  {
    hide LastAnnounced;
    var n := |cs| - 1;
    if i < n {
      AnnouncedAt(cs[..n], i);
      assert cs[..n][..i] == cs[..i] && cs[..n][..i + 1] == cs[..i + 1];
    } else {
      assert cs[..i + 1] == cs;
    }
  }

  // ---------------------------------------------------------------- where it gets

  // The server has nothing left to do by itself.
  ghost predicate AtRest(s: State) {
    forall ch :: !CanMove(s, ch)
  }

  lemma {:induction false} AnnouncedGrows(a: seq<Choice>, b: seq<Choice>)
    ensures Announced(a) <= Announced(a + b)
    decreases |b|
  {
    hide LastAnnounced;
    if b == [] {
      assert a + b == a;
    } else {
      assert (a + b)[..|a + b| - 1] == a + b[..|b| - 1];
      AnnouncedGrows(a, b[..|b| - 1]);
    }
  }

  lemma {:induction false} ExecAppend(s: State, a: seq<Choice>, s1: State, b: seq<Choice>)
    requires Exec(s, a) == Some(s1) && Exec(s1, b).Some?
    ensures Exec(s, a + b) == Exec(s1, b)
    decreases |a|
  {
    hide Step;
    if a == [] {
      assert a + b == b;
    } else {
      assert (a + b)[1..] == a[1..] + b;
      ExecAppend(Step(s, a[0]).value, a[1..], s1, b);
    }
  }

  lemma RestEnds(s: State)
    requires Inv(s) && LiveInv(s) && AtRest(s)
    ensures !Unfinished(s)
  {
    hide Inv, LiveInv, Unfinished, CanMove;
    if Unfinished(s) {
      var ch := SomethingMoves(s);
    }
  }

  // At rest a client's socket has everything its channel accepted.
  lemma RestWrites(s: State, v: Uuid)
    requires Inv(s) && AtRest(s) && v in s.chans
    ensures s.chans[v].written == s.chans[v].accepted
    ensures s.chans[v].writer.Exited? <==> s.chans[v].chan.bufferClosed
  {
    hide CallsInv, HandlerInv, BcastInv, HandlerStep;
    ClientFacts(s, v);
    var g := s.chans[v];
    assert !CanMove(s, Channel(v, G.Drain));
    assert G.AdvanceWriter(g).None?;
    assert G.OrderInv(g);
  }

  lemma LoudChoice(cs: seq<Choice>)
    requires cs != [] && (cs[|cs| - 1].Open? || cs[|cs| - 1].ReceiveChat? || cs[|cs| - 1].Hangup?)
    ensures |LastAnnounced(cs)| == 1
  {
  }

  // The number of the broadcast that announces choice `i` of the second part of a run.
  lemma Numbered(before: seq<Choice>, s1: State, during: seq<Choice>, s2: State, i: nat)
    requires Exec(Init(), before) == Some(s1) && Exec(Init(), before + during) == Some(s2)
    requires i < |during| && (during[i].Open? || during[i].ReceiveChat? || during[i].Hangup?)
    ensures var b := |Announced(before + during[..i])|;
      |s1.bcasts| <= b < |s2.bcasts| && [s2.bcasts[b].msg] == LastAnnounced(before + during[..i + 1])
  {
    hide Exec, LastAnnounced, Announced;
    var cs, k := before + during, |before| + i;
    BroadcastsAreAnnounced(before, s1);
    AnnouncedGrows(before, during[..i]);
    BroadcastsAreAnnounced(cs, s2);
    AnnouncedAt(cs, k);
    assert cs[..k] == before + during[..i] && cs[..k + 1] == before + during[..i + 1];
    LoudChoice(cs[..k + 1]);
    var b, msgs := |Announced(cs[..k])|, LastAnnounced(cs[..k + 1]);
    assert (Announced(cs[..k]) + msgs)[b] == msgs[0];
  }

  // A broadcast that is not the own connect is on the socket as often as the channel accepted it.
  lemma SocketCount(s1: State, s2: State, v: Uuid, b: nat)
    requires Inv(s1) && Inv(s2) && Later(s1, s2) && v in s1.handlers && v in s2.chans && v in s2.sockets
    requires |s1.bcasts| <= b && s2.chans[v].written == s2.chans[v].accepted
    ensures multiset(s2.sockets[v])[b] == multiset(s2.chans[v].accepted)[b]
  {
    hide Inv;
    ConnectKnown(s1, v);
    OnSocket(s2, v);
    var c := s2.handlers[v].connect;
    assert multiset(s2.sockets[v]) == multiset{c} + multiset(s2.chans[v].written);
  }

  lemma NothingFollows(s: State)
    ensures Exec(s, []) == Some(s)
  {
  }

  /**
    Everything announced gets through. If a client v serves before some client connects, says
    something or hangs up, and still serves when the server has nothing left to do, then the
    announcement of that was written to v's socket exactly once.
   */
  lemma AnnouncementArrives(before: seq<Choice>, s1: State, during: seq<Choice>, s2: State, i: nat, v: Uuid)
    requires Exec(Init(), before) == Some(s1) && Exec(s1, during) == Some(s2) && AtRest(s2)
    requires v in s1.handlers && s1.handlers[v].pc.Serving?
    requires v in s2.handlers && s2.handlers[v].pc.Serving?
    requires i < |during| && (during[i].Open? || during[i].ReceiveChat? || during[i].Hangup?)
    ensures var b := |Announced(before + during[..i])|;
      && b < |s2.bcasts|
      && [s2.bcasts[b].msg] == LastAnnounced(before + during[..i + 1])
      && v in s2.chans && multiset(s2.chans[v].accepted)[b] == 1
      && v in s2.sockets && multiset(s2.sockets[v])[b] == 1
  {
    hide Exec, Inv, LiveInv, AtRest, LastAnnounced, Announced, Later, G.AllDone;
    var b := |Announced(before + during[..i])|;
    InitInv();
    InitLive();
    ExecInv(Init(), before);
    ExecLive(Init(), before);
    ExecInv(s1, during);
    ExecLive(s1, during);
    ExecLater(s1, during);
    RestEnds(s2);
    ExecAppend(Init(), before, s1, during);
    Numbered(before, s1, during, s2, i);
    NothingFollows(s2);
    ExactlyOnce(before, s1, during, s2, [], s2, v, b);
    ClientFacts(s2, v);
    RestWrites(s2, v);
    SocketCount(s1, s2, v, b);
  }

  // ---------------------------------------------------------------- who stays

  predicate Opened(cs: seq<Choice>, u: Uuid) {
    exists i :: 0 <= i < |cs| && cs[i].Open? && cs[i].u == u
  }

  predicate HungUp(cs: seq<Choice>, u: Uuid) {
    exists i :: 0 <= i < |cs| && cs[i].Hangup? && cs[i].u == u
  }

  predicate Parting(s: State, u: Uuid) {
    u in s.handlers && Rank(s.handlers[u].pc) > Rank(Serving)
  }

  lemma PartStep(s: State, ch: Choice, u: Uuid)
    requires Step(s, ch).Some?
    ensures u in Step(s, ch).value.handlers <==> u in s.handlers || (ch.Open? && ch.u == u)
    ensures Parting(Step(s, ch).value, u) <==> Parting(s, u) || (ch.Hangup? && ch.u == u)
  {
    hide G.Step, Store, Delete;
    if ch.Handle? && ch.u in s.handlers {
      HandleKeeps(s, ch.u);
    }
  }

  lemma Extends(cs: seq<Choice>, u: Uuid)
    requires cs != []
    ensures Opened(cs, u) <==> Opened(cs[1..], u) || (cs[0].Open? && cs[0].u == u)
    ensures HungUp(cs, u) <==> HungUp(cs[1..], u) || (cs[0].Hangup? && cs[0].u == u)
  {
    assert forall i :: 1 <= i < |cs| ==> cs[i] == cs[1..][i - 1];
    assert forall i :: 0 <= i < |cs| - 1 ==> cs[1..][i] == cs[i + 1];
  }

  lemma {:induction false} PartAfter(s: State, cs: seq<Choice>, u: Uuid)
    requires Exec(s, cs).Some?
    ensures u in Exec(s, cs).value.handlers <==> u in s.handlers || Opened(cs, u)
    ensures Parting(Exec(s, cs).value, u) <==> Parting(s, u) || HungUp(cs, u)
    decreases |cs|
  {
    hide Step, Parting;
    if cs != [] {
      PartStep(s, cs[0], u);
      PartAfter(Step(s, cs[0]).value, cs[1..], u);
      Extends(cs, u);
    }
  }

  // A handler past its Close call has a closed channel.
  ghost predicate ShutInv(s: State) {
    && (forall u :: u in s.chans ==> Shut(s.chans[u]))
    && (forall u :: u in s.handlers && (s.handlers[u].pc.Deleting? || s.handlers[u].pc.Left?) ==>
          u in s.chans && s.chans[u].chan.closed)
  }

  ghost predicate Shut(g: G.State<nat>) {
    forall t :: 0 <= t < |g.calls| && g.calls[t].CloseDone? ==> g.chan.closed
  }

  lemma ShutAction(g: G.State<nat>, ch: G.Choice<nat>)
    requires G.Inv(g) && Shut(g) && G.Step(g, ch).Some? && !ch.Begin?
    ensures Shut(G.Step(g, ch).value)
    ensures g.chan.closed ==> G.Step(g, ch).value.chan.closed
  {
    if ch.Advance? {
      var c := G.AdvanceShape(g, ch.t);
    }
  }

  lemma ShutStep(s: State, ch: Choice)
    requires Inv(s) && ShutInv(s) && Step(s, ch).Some?
    ensures ShutInv(Step(s, ch).value)
  {
    hide Inv, G.Step, G.Inv, HandlerStep, Shut, Call;
    match ch
    case Channel(u, gch) =>
      ClientFacts(s, u);
      ShutAction(s.chans[u], gch);
    case Handle(u) => ShutHandle(s, u);
    case Visit(_, _) => ShutCall(s, ch);
    case Hangup(_, _) => ShutCall(s, ch);
    case _ =>
  }

  lemma ShutCall(s: State, ch: Choice)
    requires ShutInv(s) && (ch.Visit? || ch.Hangup?) && Step(s, ch).Some?
    ensures ShutInv(Step(s, ch).value)
  {
  }

  lemma ShutHandle(s: State, u: Uuid)
    requires Inv(s) && ShutInv(s) && u in s.handlers && HandlerStep(s, u).Some?
    ensures ShutInv(HandlerStep(s, u).value)
  {
    hide Inv;
    if s.handlers[u].pc.Storing? {
      NotYetThere(s, u);
    }
  }

  lemma {:induction false} ExecShut(s: State, cs: seq<Choice>)
    requires Inv(s) && ShutInv(s) && Exec(s, cs).Some?
    ensures ShutInv(Exec(s, cs).value)
    decreases |cs|
  {
    if cs != [] {
      hide Inv, Step, ShutInv;
      StepInv(s, cs[0]);
      ShutStep(s, cs[0]);
      ExecShut(Step(s, cs[0]).value, cs[1..]);
    }
  }

  lemma NothingShut()
    ensures ShutInv(Init())
  {
  }

  // A channel whose flag is set and whose calls have all returned is closed.
  lemma ClosedAtRest(g: G.State<nat>)
    requires G.LockInv(g) && g.chan.closed && G.AllDone(g)
    ensures g.chan.bufferClosed
  {
  }

  lemma StoredIsLive(s: State, u: Uuid)
    requires Inv(s) && u in s.handlers
    ensures u in s.stored <==> Live(s.handlers[u].pc)
  {
    hide ChanInv, CallsInv, BcastInv, NoClose;
    assert HandlerInv(s, u, s.handlers[u]);
  }

  lemma StoredIsKnown(s: State, u: Uuid)
    requires Inv(s) && u in s.stored
    ensures u in s.handlers
  {
  }

  /**
    Who stays. When the server has nothing left to do, exactly the clients that connected and did
    not hang up are in the map; the channel of one that did is closed, everything it accepted was
    written, and its writer has exited.
   */
  lemma WhoStays(cs: seq<Choice>, s: State, u: Uuid)
    requires Exec(Init(), cs) == Some(s) && AtRest(s)
    ensures u in s.stored <==> Opened(cs, u) && !HungUp(cs, u)
    ensures HungUp(cs, u) ==>
      && u in s.chans && s.chans[u].chan.bufferClosed && s.chans[u].writer.Exited?
      && s.chans[u].written == s.chans[u].accepted
  {
    hide Exec, Inv, LiveInv, AtRest, Opened, HungUp, G.AllDone, Shut;
    InitInv();
    InitLive();
    NothingShut();
    ExecInv(Init(), cs);
    ExecLive(Init(), cs);
    ExecShut(Init(), cs);
    PartAfter(Init(), cs, u);
    RestEnds(s);
    if u in s.stored {
      StoredIsKnown(s, u);
    }
    if u in s.handlers {
      StoredIsLive(s, u);
      if HungUp(cs, u) {
        ClientFacts(s, u);
        ChannelFacts(s.chans[u]);
        ClosedAtRest(s.chans[u]);
        RestWrites(s, u);
      }
    }
  }

  lemma ChannelFacts(g: G.State<nat>)
    requires ChanInv(g)
    ensures G.Inv(g) && G.LockInv(g) && G.OrderInv(g)
  {
  }

  /**
    No client's channel ever holds more than fifty messages that wait to be written, and a broadcast
    that has come to the client waits for it exactly while there are fifty.
   */
  lemma AtMostFiftyWait(cs: seq<Choice>, s: State, u: Uuid)
    requires Exec(Init(), cs) == Some(s) && u in s.chans
    ensures |s.chans[u].chan.buffer| <= 50
    ensures forall t :: 0 <= t < |s.chans[u].calls| && s.chans[u].calls[t].SendChecked? ==>
              (G.Step(s.chans[u], G.Advance(t)).None? <==> |s.chans[u].chan.buffer| == 50)
    ensures s.chans[u].accepted == s.chans[u].written + G.Hand(s.chans[u].writer) + s.chans[u].chan.buffer
  {
    hide Exec, Inv;
    InitInv();
    InitLive();
    ExecInv(Init(), cs);
    ExecLive(Init(), cs);
    ClientFacts(s, u);
    ChannelFacts(s.chans[u]);
    var g := s.chans[u];
    forall t | 0 <= t < |g.calls| && g.calls[t].SendChecked?
      ensures G.Step(g, G.Advance(t)).None? <==> |g.chan.buffer| == 50
    {
      G.WaitsInState(g, t);
    }
  }
}
