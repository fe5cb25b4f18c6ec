/**
  A run of the C++ room in which the last reference to a connection dies inside a broadcast
  loop, so that the room freezes (CppRoom.NestedDestructorFreezesRoom).
 */
module CppFreeze {
  import opened Options
  import opened Messages
  import opened CppRoom
  import Q = CppQueue

  const HELLO_A := SystemMessage(Connect, "a", 0)
  const HELLO_B := SystemMessage(Connect, "b", 0)

  lemma Extend(cs: seq<Choice>, s: State, ch: Choice) returns (cs': seq<Choice>, s': State)
    requires Exec(Init(), cs) == Some(s) && Step(s, ch).Some?
    ensures s' == Step(s, ch).value && Exec(Init(), cs') == Some(s')
  {
    cs', s' := cs + [ch], Step(s, ch).value;
    ExecSnoc(Init(), cs, ch);
  }

  lemma {:induction false} ExecSnoc(s: State, cs: seq<Choice>, ch: Choice)
    requires Exec(s, cs).Some?
    ensures Exec(s, cs + [ch]) == Step(Exec(s, cs).value, ch)
    decreases |cs|
  {
    if cs == [] {
      assert [ch][1..] == [];
    } else {
      assert (cs + [ch])[1..] == cs[1..] + [ch];
      ExecSnoc(Step(s, cs[0]).value, cs[1..], ch);
    }
  }

  // The first connection after its own connect was posted to it.
  function Hailed(): Q.Conn<Posted> {
    Q.Send(Q.NewConn(), Posted(HELLO_A, 10))
  }

  // The room while the first connection, 0, is accepted by agent 10.
  ghost predicate Alone(s: State, sent: bool, reading: bool, pc: Pc) {
    && s.objs.Keys == {0} && s.agents.Keys == {10}
    && s.objs[0] == Obj("a", if sent then Hailed() else Q.NewConn(), false, reading, false)
    && s.agents[10] == Agent(Accept(0), pc, HELLO_A)
    && !s.fault
  }

  ghost predicate Mutex(s: State, clients: set<Ptr>, shared: set<AgentId>, exclusive: Option<AgentId>) {
    s.clients == clients && s.shared == shared && s.exclusive == exclusive
  }

  lemma FirstGreets() returns (cs: seq<Choice>, s: State)
    ensures Exec(Init(), cs) == Some(s)
    ensures Alone(s, true, false, WantShared) && Mutex(s, {}, {}, None)
  {
    hide Held, Owned, Exec;
    cs, s := [], Init();
    EmptyRun();
    cs, s := Extend(cs, s, Run(0, "a"));
    cs, s := Extend(cs, s, Accepted(0, 10, true, 0));
    assert Alone(s, false, false, Greet) && Mutex(s, {}, {}, None);
    cs, s := Extend(cs, s, Go(10, 0, 0, 0));
  }

  lemma FirstBroadcasts() returns (cs: seq<Choice>, s: State)
    ensures Exec(Init(), cs) == Some(s)
    ensures Alone(s, true, false, WantExclusive) && Mutex(s, {}, {}, None)
  {
    hide Held, Owned, Exec;
    cs, s := FirstGreets();
    cs, s := Extend(cs, s, Go(10, 0, 0, 0));
    assert Alone(s, true, false, Loop({})) && Mutex(s, {}, {10}, None);
    cs, s := Extend(cs, s, Go(10, 0, 0, 0));
  }

  lemma FirstUnlocks() returns (cs: seq<Choice>, s: State)
    ensures Exec(Init(), cs) == Some(s)
    ensures Alone(s, true, false, Unlock) && Mutex(s, {0}, {}, Some(10))
  {
    hide Held, Owned, Exec;
    cs, s := FirstBroadcasts();
    cs, s := Extend(cs, s, Go(10, 0, 0, 0));
    assert Alone(s, true, false, InExclusive) && Mutex(s, {}, {}, Some(10));
    cs, s := Extend(cs, s, Go(10, 0, 0, 0));
  }

  lemma FirstJoins() returns (cs: seq<Choice>, s: State)
    ensures Exec(Init(), cs) == Some(s)
    ensures Alone(s, true, true, Done) && Mutex(s, {0}, {}, None)
  {
    hide Held, Owned, Exec;
    cs, s := FirstUnlocks();
    cs, s := Extend(cs, s, Go(10, 0, 0, 0));
    assert Alone(s, true, false, Read) && Mutex(s, {0}, {}, None);
    cs, s := Extend(cs, s, Go(10, 0, 0, 0));
  }

  lemma EmptyRun()
    ensures Exec(Init(), []) == Some(Init())
  {
  }

  // The room while the second connection, 1, is announced to the first by agent 11.
  ghost predicate Second(s: State, conn: Q.Conn<Posted>, reading: bool, pc: Pc) {
    && s.objs.Keys == {0, 1} && s.agents.Keys == {10, 11}
    && s.objs[0] == Obj("a", conn, false, reading, false)
    && s.objs[1].conn.posts == (if pc.Greet? then [] else [Posted(HELLO_B, 11)])
    && s.agents[10].pc.Done? && s.agents[10].job.o == 0
    && s.agents[11] == Agent(Accept(1), pc, HELLO_B)
    && !s.fault
  }

  function Told(): Q.Conn<Posted> {
    Q.Send(Hailed(), Posted(HELLO_B, 11))
  }

  lemma SecondGreets() returns (cs: seq<Choice>, s: State)
    ensures Exec(Init(), cs) == Some(s)
    ensures Second(s, Hailed(), true, WantShared) && Mutex(s, {0}, {}, None)
  {
    hide Owned, Held, Exec;
    cs, s := FirstJoins();
    cs, s := Extend(cs, s, Run(1, "b"));
    cs, s := Extend(cs, s, Accepted(1, 11, true, 0));
    assert Second(s, Hailed(), true, Greet) && Mutex(s, {0}, {}, None);
    cs, s := Extend(cs, s, Go(11, 0, 0, 0));
  }

  lemma SecondPeeks() returns (cs: seq<Choice>, s: State)
    ensures Exec(Init(), cs) == Some(s)
    ensures Second(s, Hailed(), true, Peeked(0, {0})) && Mutex(s, {0}, {11}, None)
  {
    hide Owned, Held, Exec;
    cs, s := SecondGreets();
    var conn := s.objs[0].conn;
    cs, s := Extend(cs, s, Go(11, 0, 0, 0));
    assert Second(s, conn, true, Loop({})) && Mutex(s, {0}, {11}, None);
    assert {0} == {} + {0};
    cs, s := Extend(cs, s, Go(11, 0, 0, 0));
  }

  lemma SecondBroadcasts() returns (cs: seq<Choice>, s: State)
    ensures Exec(Init(), cs) == Some(s)
    ensures Second(s, Told(), true, Sent(0, {0})) && Mutex(s, {0}, {11}, None)
  {
    hide Owned, Exec;
    cs, s := SecondPeeks();
    assert Held(s, 0);
    cs, s := Extend(cs, s, Go(11, 0, 0, 0));
    assert Second(s, Hailed(), true, Strong(0, {0})) && Mutex(s, {0}, {11}, None);
    cs, s := Extend(cs, s, Go(11, 0, 0, 0));
  }

  // The first connection after the write of its first message has failed.
  function Broken(): Q.Conn<Posted> {
    Q.OnSend(Q.OnWrite(Q.OnSend(Told()), true))
  }

  lemma FirstFails() returns (cs: seq<Choice>, s: State)
    ensures Exec(Init(), cs) == Some(s)
    ensures Second(s, Broken(), true, Sent(0, {0})) && Mutex(s, {0}, {11}, None)
  {
    hide Owned, Held, Exec;
    cs, s := SecondBroadcasts();
    var c1 := Q.OnSend(Told());
    cs, s := Extend(cs, s, StrandOnSend(0));
    assert Second(s, c1, true, Sent(0, {0}));
    cs, s := Extend(cs, s, StrandOnWrite(0, true));
    assert Second(s, Q.OnWrite(c1, true), true, Sent(0, {0}));
    cs, s := Extend(cs, s, StrandOnSend(0));
  }

  lemma BrokenIsIdle()
    ensures Broken().posts == [] && Broken().inflight == []
  {
  }

  /**
    The freeze is reachable: a second connection's announcement takes a reference to the first,
    whose write and read then fail, so that the announcement drops the last reference.
   */
  lemma FreezeIsReachable() returns (cs: seq<Choice>, s: State)
    ensures Exec(Init(), cs) == Some(s) && SelfDeadlock(s, 11, 13)
  {
    hide Owned, Exec, Broken;
    cs, s := FirstFails();
    BrokenIsIdle();
    cs, s := Extend(cs, s, ReadDone(0, 12, ReadResult.Failed, 0));
    assert Second(s, Broken(), false, Sent(0, {0}));
    assert !Held(SetPc(s, 11, Loop({0})), 0);
    cs, s := Extend(cs, s, Go(11, 0, 0, 0));
    assert Second(s, Broken(), false, Dropping(0, {0}));
    cs, s := Extend(cs, s, Go(11, 0, 13, 0));
  }
}
