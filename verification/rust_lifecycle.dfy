/**
  The life of a connection of the Rust server (wschat-rust/src/main.rs) over whole runs: when it
  closes, what its user's leaving means for the room, and what it writes to its own websocket.
  Every theorem speaks about the choices that the run was made of.
 */
module RustLifecycle {
  import opened Options
  import opened RustRoom

  // ---------------------------------------------------------------- closing

  // The frames after which a Conn stops.
  predicate Closing(f: Frame) {
    f == CloseFrame || f == Continuation || f == ProtocolError || f == EndOfStream
  }

  predicate Closes(ch: Choice, c: ConnId) {
    ch.Receive? && ch.c == c && Closing(ch.frame)
  }

  // The connection received a closing frame.
  predicate GotClose(cs: seq<Choice>, c: ConnId) {
    exists i :: 0 <= i < |cs| && Closes(cs[i], c)
  }

  predicate Halted(s: State, c: ConnId) {
    c in s.conns && (s.conns[c].phase.Stopping? || s.conns[c].phase.Stopped?)
  }

  predicate HasStarted(s: State, c: ConnId) {
    c in s.conns && !s.conns[c].phase.Created?
  }

  lemma PhaseChange(s: State, ch: Choice, c: ConnId)
    requires Step(s, ch).Some?
    ensures Halted(Step(s, ch).value, c) <==> Halted(s, c) || Closes(ch, c)
    ensures HasStarted(Step(s, ch).value, c) <==> HasStarted(s, c) || ch == Start(c)
  {
    hide HandleMail, FreshUuid;
  }

  lemma {:induction false} PhaseAfter(s: State, cs: seq<Choice>, c: ConnId)
    requires Exec(s, cs).Some?
    ensures Halted(Exec(s, cs).value, c) <==> Halted(s, c) || GotClose(cs, c)
    ensures HasStarted(Exec(s, cs).value, c) <==> HasStarted(s, c) || Start(c) in cs
    decreases |cs|
  {
    hide Step, Halted, HasStarted, Closes;
    if cs != [] {
      PhaseChange(s, cs[0], c);
      PhaseAfter(Step(s, cs[0]).value, cs[1..], c);
      assert cs == [cs[0]] + cs[1..];
      assert GotClose(cs, c) <==> Closes(cs[0], c) || GotClose(cs[1..], c) by {
        if i :| 0 <= i < |cs| && Closes(cs[i], c) {
          assert i > 0 ==> cs[1..][i - 1] == cs[i];
        }
        if i :| 0 <= i < |cs[1..]| && Closes(cs[1..][i], c) {
          assert cs[i + 1] == cs[1..][i];
        }
      }
    }
  }

  lemma {:induction false} ExecAppend(s: State, a: seq<Choice>, b: seq<Choice>)
    requires Exec(s, a + b).Some?
    ensures Exec(s, a).Some? && Exec(Exec(s, a).value, b) == Exec(s, a + b)
    decreases |a|
  {
    hide Step;
    if a == [] {
      assert a + b == b;
    } else {
      assert (a + b)[1..] == a[1..] + b;
      ExecAppend(Step(s, a[0]).value, a[1..], b);
    }
  }

  /**
    A connection that has received a closing frame handles no frame any more, in any run: neither
    another text nor anything else that arrives on its stream.
   */
  lemma NeverRunsAgain(cs: seq<Choice>, i: nat, j: nat, c: ConnId)
    requires Exec(Init(), cs).Some? && i < j < |cs| && Closes(cs[i], c)
    ensures !(cs[j].Receive? && cs[j].c == c)
  {
    hide Exec;
    assert cs == cs[..j] + cs[j..];
    ExecAppend(Init(), cs[..j], cs[j..]);
    assert cs[..j][i] == cs[i];
    PhaseAfter(Init(), cs[..j], c);
    var s := Exec(Init(), cs[..j]).value;
    assert cs[j..][0] == cs[j];
    FirstEnabled(s, cs[j..]);
  }

  lemma FirstEnabled(s: State, cs: seq<Choice>)
    requires cs != [] && Exec(s, cs).Some?
    ensures Step(s, cs[0]).Some?
  {
  }

  // The log says that the user has left.
  predicate LoggedGone(log: seq<Entry>, u: Uuid) {
    exists k :: 0 <= k < |log| && log[k].Gone? && log[k].uuid == u
  }

  // The actors have no message left to handle: none waits for the server or to be sent to it.
  ghost predicate Idle(s: State) {
    && (forall now :: Step(s, Serve(now)).None?)
    && (forall c :: Step(s, Stop(c)).None?)
  }

  lemma GoneIsLeave(log: seq<Entry>, u: Uuid)
    ensures LoggedGone(log, u) <==> Event(u, Leave) in Seen(LogEvents(log))
  {
    if k :| 0 <= k < |log| && log[k].Gone? && log[k].uuid == u {
      assert LogEvents(log)[k] == Event(u, Leave);
    }
    if Event(u, Leave) in Seen(LogEvents(log)) {
      var k :| 0 <= k < |LogEvents(log)| && LogEvents(log)[k] == Event(u, Leave);
      assert log[k].Gone? && log[k].uuid == u;
    }
  }

  lemma LoggedIsSeen(s: State)
    ensures forall e :: e in Seen(LogEvents(s.log)) ==> e in Seen(History(s))
    ensures s.mailbox == [] ==> Seen(History(s)) == Seen(LogEvents(s.log))
  {
    if s.mailbox == [] {
      assert History(s) == LogEvents(s.log);
    }
  }

  lemma WhatPhaseMeans(s: State, c: ConnId)
    requires Inv(s) && c in s.conns
    ensures PhaseOk(Seen(History(s)), s.conns[c]) && ClientsInv(s.hub.clients, Seen(LogEvents(s.log)))
  {
    hide Lifecycles, AddressInv, WindowInv, PhaseOk;
  }

  lemma IdleShape(s: State, c: ConnId)
    requires Idle(s) && c in s.conns
    ensures s.mailbox == [] && !s.conns[c].phase.Stopping?
  {
    hide HandleMail;
    assert Step(s, Serve(0)).None? && Step(s, Stop(c)).None?;
  }

  /**
    Who leaves. In every run a user is only logged as gone when its connection received a closing
    frame; and once the actors have handled all their messages, exactly the users whose connection
    did are logged as gone, and exactly those whose connection started and did not are in the table.
   */
  lemma ClosersLeave(cs: seq<Choice>, s: State, c: ConnId)
    requires Exec(Init(), cs) == Some(s) && c in s.conns
    ensures LoggedGone(s.log, s.conns[c].uuid) ==> GotClose(cs, c)
    ensures Idle(s) ==>
      && (LoggedGone(s.log, s.conns[c].uuid) <==> GotClose(cs, c))
      && (s.conns[c].uuid in s.hub.clients <==> Start(c) in cs && !GotClose(cs, c))
  {
    hide Inv, Exec, Idle, LoggedGone, GotClose, Seen, LogEvents, History;
    RunInv(cs, s);
    PhaseAfter(Init(), cs, c);
    GoneIsLeave(s.log, s.conns[c].uuid);
    LoggedIsSeen(s);
    WhatPhaseMeans(s, c);
    if Idle(s) {
      IdleShape(s, c);
    }
  }

  // ---------------------------------------------------------------- private replies

  // What a frame makes the connection itself write to its websocket.
  function ReplyTo(ch: Choice, c: ConnId): seq<Out> {
    if !ch.Receive? || ch.c != c then []
    else if ch.frame == Ping then [PongReply]
    else if ch.frame == Text(None) then [BadMessage(ch.now)]
    else if ch.frame == CloseFrame then [CloseReply]
    else []
  }

  function RepliesTo(cs: seq<Choice>, c: ConnId): seq<Out> {
    if cs == [] then [] else ReplyTo(cs[0], c) + RepliesTo(cs[1..], c)
  }

  // The output of a connection without the room's messages.
  function Private(out: seq<Out>): seq<Out> {
    if out == [] then []
    else Private(out[..|out| - 1]) + (if out[|out| - 1].Room? then [] else [out[|out| - 1]])
  }

  function PrivateOf(s: State, c: ConnId): seq<Out> {
    if c in s.conns then Private(s.conns[c].out) else []
  }

  lemma PrivateSnoc(out: seq<Out>, o: Out)
    ensures Private(out + [o]) == Private(out) + (if o.Room? then [] else [o])
  {
    assert (out + [o])[..|out|] == out;
  }

  lemma ReplyStep(s: State, ch: Choice, c: ConnId)
    requires Step(s, ch).Some?
    ensures PrivateOf(Step(s, ch).value, c) == PrivateOf(s, c) + ReplyTo(ch, c)
  {
    hide HandleMail, FreshUuid, Private;
    assert Private([]) == [] by {
      NothingPrivate();
    }
    if c in s.conns {
      var out := s.conns[c].out;
      assert Private(out) + [] == Private(out);
      match ch
      case Receive(d, f, now) =>
        PrivateSnoc(out, PongReply);
        PrivateSnoc(out, BadMessage(now));
        PrivateSnoc(out, CloseReply);
      case Deliver(d) =>
        if d == c {
          PrivateSnoc(out, Room(s.hub.mailboxes[c][0]));
        }
      case _ =>
    }
  }

  lemma NothingPrivate()
    ensures Private([]) == []
  {
  }

  lemma {:induction false} RepliesAfter(s: State, cs: seq<Choice>, c: ConnId)
    requires Exec(s, cs).Some?
    ensures PrivateOf(Exec(s, cs).value, c) == PrivateOf(s, c) + RepliesTo(cs, c)
    decreases |cs|
  {
    hide Step, PrivateOf, ReplyTo;
    if cs != [] {
      ReplyStep(s, cs[0], c);
      RepliesAfter(Step(s, cs[0]).value, cs[1..], c);
    }
  }

  /**
    Besides the room's messages a websocket carries exactly one pong for each ping, one error reply
    for each bad message and one close for each close frame, in the order of what they answer.
   */
  lemma RepliesAnswer(cs: seq<Choice>, s: State, c: ConnId)
    requires Exec(Init(), cs) == Some(s) && c in s.conns
    ensures Private(s.conns[c].out) == RepliesTo(cs, c)
  {
    RepliesAfter(Init(), cs, c);
  }

  // ---------------------------------------------------------------- the server's timestamps

  // The times at which the server handled its messages.
  function ServedAt(cs: seq<Choice>): seq<nat> {
    if cs == [] then [] else (if cs[0].Serve? then [cs[0].now] else []) + ServedAt(cs[1..])
  }

  predicate Stamped(e: Entry, now: nat) {
    e.Said? || e.ts == now
  }

  lemma {:induction false} StampsAfter(s: State, cs: seq<Choice>)
    requires Exec(s, cs).Some?
    ensures var log := Exec(s, cs).value.log;
      && |log| == |s.log| + |ServedAt(cs)| && s.log <= log
      && forall k :: |s.log| <= k < |log| ==> Stamped(log[k], ServedAt(cs)[k - |s.log|])
    decreases |cs|
  {
    hide Stamped;
    if cs != [] {
      StampStep(s, cs[0]);
      hide Step;
      StampsAfter(Step(s, cs[0]).value, cs[1..]);
    }
  }

  lemma StampStep(s: State, ch: Choice)
    requires Step(s, ch).Some?
    ensures var log := Step(s, ch).value.log;
      if ch.Serve? then |log| == |s.log| + 1 && s.log <= log && Stamped(log[|s.log|], ch.now) else log == s.log
  {
    hide HandleMail, FreshUuid;
  }

  /**
    The log has one entry for each message the server handled, and a connect or disconnect carries
    the time at which the server handled it. What a chat carries is in RustRoom.ChatsAreConserved.
   */
  lemma StampsAreTimes(cs: seq<Choice>, s: State)
    requires Exec(Init(), cs) == Some(s)
    ensures |s.log| == |ServedAt(cs)|
    ensures forall k :: 0 <= k < |s.log| && !s.log[k].Said? ==> s.log[k].ts == ServedAt(cs)[k]
  {
    StampsAfter(Init(), cs);
  }

  // ---------------------------------------------------------------- everything arrives

  /**
    When a connection that has not been closed has nothing left to deliver, its websocket carries
    everything the server broadcast from the user's own connect up to now.
   */
  lemma EverythingArrives(cs: seq<Choice>, s: State, c: ConnId)
    requires Exec(Init(), cs) == Some(s) && c in s.conns
    requires Start(c) in cs && !GotClose(cs, c) && Step(s, Deliver(c)).None?
    ensures RoomTexts(s.conns[c].out) == s.log[Lo(s.log, s.conns[c].uuid)..]
  {
    hide Exec, GotClose, Lo, Hi, RoomTexts, LoggedGone, HandleMail;
    PhaseAfter(Init(), cs, c);
    ClosersLeave(cs, s, c);
    OrderedWindows(cs, s, c);
    NotGoneYet(s.log, s.conns[c].uuid);
    assert s.hub.mailboxes[c] == [];
  }

  lemma NotGoneYet(log: seq<Entry>, u: Uuid)
    requires !LoggedGone(log, u)
    ensures Hi(log, u) == |log|
  {
    GoneIsLeave(log, u);
    FirstIsMembership(log, Event(u, Leave));
  }
}
