/**
  What a broadcast of the C++ room (wschat-cpp/include/server.cpp) achieves, however it is
  interleaved with everything else: no member that stays alive is missed.
 */
module CppDelivery {
  import opened Options
  import opened Messages
  import opened Sums
  import opened CppRoom
  import Q = CppQueue

  // The pointers that an agent in the broadcast loop is done with.
  function Finished(pc: Pc): set<Ptr> {
    match pc
    case Loop(seen) => seen
    case Peeked(p, seen) => seen - {p}
    case Strong(p, seen) => seen - {p}
    case Sent(_, seen) => seen
    case Dropping(_, seen) => seen
    case Waiting(_, seen) => seen
    case _ => {}
  }

  // Those are members still, and have been sent this agent's message unless they have no
  // reference left.
  ghost predicate Reached(s: State, a: AgentId, g: Agent) {
    forall p :: p in Finished(g.pc) ==> p in s.clients && (Held(s, p) ==> Has(s, p, Posted(g.msg, a)))
  }

  ghost predicate Has(s: State, p: Ptr, post: Posted) {
    p in s.objs && post in s.objs[p].conn.sent
  }

  ghost predicate AllReached(s: State) {
    forall a :: a in s.agents ==> Reached(s, a, s.agents[a])
  }

  // What no step takes back: messages stay sent, and a reference count that is zero stays zero.
  ghost predicate Kept(s: State, s': State) {
    forall p :: p in s.objs && p in s'.objs ==>
      && (forall m :: m in s.objs[p].conn.sent ==> m in s'.objs[p].conn.sent)
      && (Held(s', p) ==> Held(s, p))
  }

  // One connection and one agent, old or new, change.
  lemma OneChange(s: State, o: Ptr, obj: Obj, a: AgentId, g: Agent, s': State)
    requires o in s.objs && s'.objs == s.objs[o := obj] && s'.agents == s.agents[a := g]
    requires forall m :: m in s.objs[o].conn.sent ==> m in obj.conn.sent
    requires IoHeld(obj) ==> Held(s, o)
    requires forall x :: HoldsRef(g, x) ==> Held(s, x)
    ensures Kept(s, s')
  {
    hide IoHeld, HoldsRef;
    forall p | p in s.objs && p in s'.objs && Held(s', p)
      ensures Held(s, p)
    {
      if !IoHeld(s'.objs[p]) {
        var b :| b in s'.agents && HoldsRef(s'.agents[b], p);
        assert b != a ==> s.agents[b] == s'.agents[b];
      }
    }
  }

  // One connection changes and no agent does.
  lemma ObjChange(s: State, o: Ptr, obj: Obj)
    requires o in s.objs
    requires obj.conn.sent == s.objs[o].conn.sent && (IoHeld(obj) ==> IoHeld(s.objs[o]))
    ensures Kept(s, SetObj(s, o, obj))
  {
    hide IoHeld, HoldsRef;
  }

  // ---------------------------------------------------------------- the agents' steps

  lemma SendKept(s: State, a: AgentId, p: Ptr, pc: Pc)
    requires a in s.agents && !s.agents[a].pc.Done? && p in s.objs && Held(s, p)
    requires pc.Strong? || pc.Sent? ==> Held(s, pc.p)
    ensures Kept(s, SetPc(SendTo(s, p, Posted(s.agents[a].msg, a)), a, pc))
    ensures Has(SetPc(SendTo(s, p, Posted(s.agents[a].msg, a)), a, pc), p, Posted(s.agents[a].msg, a))
  {
    hide Held, HoldsRef;
    var s' := SetPc(SendTo(s, p, Posted(s.agents[a].msg, a)), a, pc);
    forall x | HoldsRef(s'.agents[a], x)
      ensures Held(s, x)
    {
      HolderHolds(s, a, x, pc);
    }
    OneChange(s, p, s'.objs[p], a, s'.agents[a], s');
  }

  // The agent moves, and gains no reference to a connection that has none.
  lemma MoveKept(s: State, a: AgentId, pc: Pc, s': State)
    requires Inv(s) && a in s.agents && !s.agents[a].pc.Done?
    requires s'.objs == s.objs && s'.agents == s.agents[a := s.agents[a].(pc := pc)]
    requires pc.Strong? || pc.Sent? ==> Held(s, pc.p)
    ensures Kept(s, s')
  {
    hide LockInv, JobOk, PcOk, Held, IoHeld, Kept;
    OwnObject(s, a);
    var o, g := s.agents[a].job.o, s.agents[a].(pc := pc);
    assert s.objs == s.objs[o := s.objs[o]];
    forall x | HoldsRef(g, x)
      ensures Held(s, x)
    {
      HolderHolds(s, a, x, pc);
    }
    if IoHeld(s.objs[o]) {
      IoHolds(s, o);
    }
    OneChange(s, o, s.objs[o], a, g, s');
  }

  lemma HolderHolds(s: State, a: AgentId, x: Ptr, pc: Pc)
    requires a in s.agents && !s.agents[a].pc.Done? && HoldsRef(s.agents[a].(pc := pc), x)
    requires pc.Strong? || pc.Sent? ==> Held(s, pc.p)
    ensures Held(s, x)
  {
    assert ((pc.Strong? || pc.Sent?) && pc.p == x) || HoldsRef(s.agents[a], x);
  }

  lemma IoHolds(s: State, o: Ptr)
    requires o in s.objs && IoHeld(s.objs[o])
    ensures Held(s, o)
  {
  }

  // The actions that only move the agent.
  lemma MovesKept(s: State, a: AgentId, pick: Ptr, child: AgentId, now: int)
    requires Inv(s) && a in s.agents && Act(s, a, pick, child, now).Some?
    requires var pc := s.agents[a].pc;
      !pc.Greet? && !pc.Complain? && !pc.Strong? && !pc.Dropping? && !pc.Read? && !pc.Free?
    ensures Kept(s, Act(s, a, pick, child, now).value)
  {
    hide Kept, Held, Inv;
    var s' := Act(s, a, pick, child, now).value;
    MoveKept(s, a, s'.agents[a].pc, s');
  }

  // The actions that send.
  lemma SendsKept(s: State, a: AgentId, pick: Ptr, child: AgentId, now: int)
    requires Inv(s) && a in s.agents && (s.agents[a].pc.Greet? || s.agents[a].pc.Complain? || s.agents[a].pc.Strong?)
    ensures Kept(s, Act(s, a, pick, child, now).value)
    ensures s.agents[a].pc.Strong? ==>
      Has(Act(s, a, pick, child, now).value, s.agents[a].pc.p, Posted(s.agents[a].msg, a))
  {
    hide Kept, Held, LockInv, JobOk, PcOk, Has, SendTo;
    OwnObject(s, a);
    var g, s' := s.agents[a], Act(s, a, pick, child, now).value;
    var p := if g.pc.Strong? then g.pc.p else g.job.o;
    SenderHolds(s, a);
    SendKept(s, a, p, s'.agents[a].pc);
  }

  lemma SenderHolds(s: State, a: AgentId)
    requires Inv(s) && a in s.agents && (s.agents[a].pc.Greet? || s.agents[a].pc.Complain? || s.agents[a].pc.Strong?)
    ensures var g := s.agents[a];
      var p := if g.pc.Strong? then g.pc.p else g.job.o;
      p in s.objs && Held(s, p)
  {
    hide LockInv;
    OwnObject(s, a);
    var g := s.agents[a];
    assert g.pc.Strong? ==> HoldsRef(g, g.pc.p);
    assert g.job.Destroy? || HoldsRef(g, g.job.o);
  }

  lemma ReadKept(s: State, a: AgentId, pick: Ptr, child: AgentId, now: int)
    requires Inv(s) && a in s.agents && s.agents[a].pc.Read?
    ensures Kept(s, Act(s, a, pick, child, now).value)
  {
    hide Kept, LockInv, PcOk;
    OwnObject(s, a);
    var s' := Act(s, a, pick, child, now).value;
    var o := s.agents[a].job.o;
    OneChange(s, o, s'.objs[o], a, s'.agents[a], s');
  }

  lemma FreeKept(s: State, a: AgentId, pick: Ptr, child: AgentId, now: int)
    requires Inv(s) && a in s.agents && s.agents[a].pc.Free?
    ensures Kept(s, Act(s, a, pick, child, now).value)
  {
    hide LockInv, PcOk, Held;
    OwnObject(s, a);
    var g, s' := s.agents[a], Act(s, a, pick, child, now).value;
    assert g.job.Destroy?;
    forall p | p in s.objs && p in s'.objs && Held(s', p)
      ensures Held(s, p)
    {
      if !Held(s, p) {
        FreedStaysUnheld(s, s', a, g.job.o, p);
      }
    }
  }

  // The destructor of a connection is entered, as agent `d`.
  lemma DestroyKept(s: State, o: Ptr, d: AgentId, now: int)
    requires o in s.objs && d !in s.agents
    ensures Kept(s, BeginDestroy(s, o, d, now))
  {
    hide Kept, Held;
    var s' := BeginDestroy(s, o, d, now);
    if IoHeld(s.objs[o]) {
      IoHolds(s, o);
    }
    OneChange(s, o, s'.objs[o], d, s'.agents[d], s');
  }

  lemma KeptTrans(s: State, s1: State, s2: State)
    requires Kept(s, s1) && Kept(s1, s2) && s.objs.Keys <= s1.objs.Keys
    ensures Kept(s, s2)
  {
    hide Held;
  }

  lemma DropKept(s: State, a: AgentId, pick: Ptr, child: AgentId, now: int)
    requires Inv(s) && a in s.agents && s.agents[a].pc.Dropping? && child !in s.agents
    ensures Kept(s, Act(s, a, pick, child, now).value)
  {
    hide Kept, Held, LockInv, JobOk, Unique;
    OwnObject(s, a);
    var p, pc := s.agents[a].pc.p, Waiting(child, s.agents[a].pc.seen);
    var s1 := SetPc(s, a, pc);
    assert p in s.objs;
    MoveKept(s, a, pc, s1);
    DestroyKept(s1, p, child, now);
    var s' := Act(s, a, pick, child, now).value;
    assert a != child;
    assert s'.agents == BeginDestroy(s1, p, child, now).agents;
    assert s' == BeginDestroy(s1, p, child, now);
    KeptTrans(s, s1, s');
  }

  lemma ActKept(s: State, a: AgentId, pick: Ptr, child: AgentId, now: int)
    requires Inv(s) && a in s.agents && Act(s, a, pick, child, now).Some?
    ensures Kept(s, Act(s, a, pick, child, now).value)
  {
    hide Kept, Held, Inv, SendTo;
    var pc := s.agents[a].pc;
    if pc.Greet? || pc.Complain? || pc.Strong? {
      SendsKept(s, a, pick, child, now);
    } else if pc.Read? {
      ReadKept(s, a, pick, child, now);
    } else if pc.Free? {
      FreeKept(s, a, pick, child, now);
    } else if pc.Dropping? {
      DropKept(s, a, pick, child, now);
    } else {
      MovesKept(s, a, pick, child, now);
    }
  }

  // ---------------------------------------------------------------- the I/O runtime's steps

  lemma StartKept(s: State, o: Ptr, obj: Obj, a: AgentId, g: Agent)
    requires o in s.objs && a !in s.agents && g.job.o == o && !g.pc.Strong? && !g.pc.Sent?
    requires IoHeld(s.objs[o]) && obj.conn == s.objs[o].conn
    ensures Kept(s, StartHandler(s, o, obj, a, g))
  {
    hide Kept, Held, IoHeld;
    IoHolds(s, o);
    OneChange(s, o, obj, a, g, StartHandler(s, o, obj, a, g));
  }

  lemma StrandKept(s: State, o: Ptr, error: bool)
    requires Inv(s) && o in s.objs
    ensures s.objs[o].conn.posts != [] ==> Kept(s, SetObj(s, o, s.objs[o].(conn := Q.OnSend(s.objs[o].conn))))
    ensures s.objs[o].conn.inflight != [] ==>
              Kept(s, SetObj(s, o, s.objs[o].(conn := Q.OnWrite(s.objs[o].conn, error))))
  {
    hide Kept, Q.Inv, Q.OnSend, Q.OnWrite, LockInv;
    assert ObjOk(s.objs[o]);
    StrandSentSame(s.objs[o].conn, error);
    if s.objs[o].conn.posts != [] {
      ObjChange(s, o, s.objs[o].(conn := Q.OnSend(s.objs[o].conn)));
    }
    if s.objs[o].conn.inflight != [] {
      ObjChange(s, o, s.objs[o].(conn := Q.OnWrite(s.objs[o].conn, error)));
    }
  }

  lemma RunKept(s: State, o: Ptr, obj: Obj)
    requires o !in s.objs
    ensures Kept(s, SetObj(s, o, obj))
  {
    hide IoHeld, HoldsRef;
  }

  lemma StepKept(s: State, ch: Choice)
    requires Inv(s) && Step(s, ch).Some?
    ensures Kept(s, Step(s, ch).value)
  {
    hide Kept, Held, Owned, Inv, Act, BeginDestroy, Q.OnSend, Q.OnWrite;
    var s' := Step(s, ch).value;
    match ch
    case Run(o, uuid) => RunKept(s, o, s'.objs[o]);
    case Accepted(o, a, ok, now) =>
      if ok { StartKept(s, o, s'.objs[o], a, s'.agents[a]); } else { ObjChange(s, o, s'.objs[o]); }
    case ReadDone(o, a, result, now) =>
      if result.Failed? { ObjChange(s, o, s'.objs[o]); } else { StartKept(s, o, s'.objs[o], a, s'.agents[a]); }
    case StrandOnSend(o) => StrandKept(s, o, false);
    case StrandOnWrite(o, error) => StrandKept(s, o, error);
    case Reap(o, a, now) => DestroyKept(s, o, a, now);
    case Go(a, pick, child, now) => ActKept(s, a, pick, child, now);
  }

  // ---------------------------------------------------------------- the loop's progress

  // Nobody enters or leaves the set while some agent is in the loop.
  lemma SetStable(s: State, ch: Choice, a: AgentId)
    requires LockInv(s) && Step(s, ch).Some? && a in s.agents && InLoop(s.agents[a].pc)
    ensures Step(s, ch).value.clients == s.clients
  {
    hide Held, Owned, SendTo, BeginDestroy;
    assert a in s.shared;
    if ch.Go? {
      ClientsChange(s, ch.a, ch.pick, ch.child, ch.now);
    }
    if ch.Reap? {
      DestroyClients(s, ch.o, ch.a, ch.now);
    }
  }

  lemma DestroyClients(s: State, o: Ptr, d: AgentId, now: int)
    ensures BeginDestroy(s, o, d, now).clients == s.clients
    ensures forall b :: b in s.agents && b != d ==>
      b in BeginDestroy(s, o, d, now).agents && BeginDestroy(s, o, d, now).agents[b] == s.agents[b]
  {
  }

  lemma ClientsChange(s: State, a: AgentId, pick: Ptr, child: AgentId, now: int)
    requires a in s.agents && Act(s, a, pick, child, now).Some? && !s.agents[a].pc.InExclusive?
    ensures Act(s, a, pick, child, now).value.clients == s.clients
  {
    hide Held, SendTo, BeginDestroy;
    SendToFacts(s, s.agents[a].job.o, Posted(s.agents[a].msg, a));
    match s.agents[a].pc
    case Strong(p, _) => SendToFacts(s, p, Posted(s.agents[a].msg, a));
    case Dropping(p, _) => DestroyClients(s, p, child, now);
    case _ =>
  }

  // An agent that does not move stays as far as it was.
  lemma ReachedKept(s: State, s': State, a: AgentId, g: Agent)
    requires Inv(s) && Inv(s') && Kept(s, s') && Reached(s, a, g)
    requires Finished(g.pc) != {} ==> s'.clients == s.clients
    ensures Reached(s', a, g)
  {
    hide Held, LockInv, AgentOk, Finished;
    forall p | p in Finished(g.pc)
      ensures p in s'.clients && (Held(s', p) ==> Has(s', p, Posted(g.msg, a)))
    {
      assert p in s.objs && p in s'.objs;
    }
  }

  // Where an agent goes from where it is, unless it has to run a destructor.
  predicate Follows(g: Agent, clients: set<Ptr>, pc: Pc) {
    match g.pc
    case Greet => pc.WantShared?
    case Complain => pc.Read?
    case WantShared => pc == Loop({})
    case Loop(seen) =>
      || pc.Read? || pc.WantExclusive?
      || (pc.Peeked? && pc.p in clients && pc.p !in seen && pc.seen == seen + {pc.p})
    case Peeked(p, seen) => pc == Strong(p, seen) || pc == Loop(seen)
    case Strong(p, seen) => pc == Sent(p, seen)
    case Sent(p, seen) => pc == Loop(seen) || pc == Dropping(p, seen)
    case Dropping(_, _) => false
    case Waiting(_, seen) => pc == Loop(seen)
    case WantExclusive => pc.InExclusive?
    case InExclusive => pc.Unlock?
    case Unlock => pc.Free? || pc.Read?
    case Read => pc.Done?
    case Free => pc.Done?
    case Done => false
  }

  predicate Moved(s: State, a: AgentId, s': State) {
    a in s.agents && a in s'.agents && s'.agents == s.agents[a := s.agents[a].(pc := s'.agents[a].pc)]
  }

  lemma MovesInLoop(s: State, a: AgentId, pick: Ptr, child: AgentId, now: int)
    requires a in s.agents && Act(s, a, pick, child, now).Some? && !s.agents[a].pc.Dropping?
    requires InLoop(s.agents[a].pc)
    ensures Moved(s, a, Act(s, a, pick, child, now).value)
  {
    hide Held, SendTo, BeginDestroy;
    if s.agents[a].pc.Strong? {
      SendToFacts(s, s.agents[a].pc.p, Posted(s.agents[a].msg, a));
    }
  }

  lemma MovesOutside(s: State, a: AgentId, pick: Ptr, child: AgentId, now: int)
    requires a in s.agents && Act(s, a, pick, child, now).Some? && !InLoop(s.agents[a].pc)
    requires !Act(s, a, pick, child, now).value.fault
    ensures Moved(s, a, Act(s, a, pick, child, now).value)
  {
    hide Held, SendTo, BeginDestroy;
    SendToFacts(s, s.agents[a].job.o, Posted(s.agents[a].msg, a));
  }

  lemma OnlyItMoves(s: State, a: AgentId, pick: Ptr, child: AgentId, now: int)
    requires a in s.agents && Act(s, a, pick, child, now).Some? && !s.agents[a].pc.Dropping?
    requires !Act(s, a, pick, child, now).value.fault
    ensures Moved(s, a, Act(s, a, pick, child, now).value)
  {
    hide Act, Moved;
    if InLoop(s.agents[a].pc) {
      MovesInLoop(s, a, pick, child, now);
    } else {
      MovesOutside(s, a, pick, child, now);
    }
  }

  lemma ActFollows(s: State, a: AgentId, pick: Ptr, child: AgentId, now: int)
    requires a in s.agents && Act(s, a, pick, child, now).Some? && !s.agents[a].pc.Dropping?
    requires !Act(s, a, pick, child, now).value.fault
    ensures var s' := Act(s, a, pick, child, now).value;
      a in s'.agents && Follows(s.agents[a], s.clients, s'.agents[a].pc)
  {
    hide Held, SendTo, BeginDestroy;
    var g := s.agents[a];
    SendToFacts(s, if g.pc.Strong? then g.pc.p else g.job.o, Posted(g.msg, a));
  }

  lemma DropAgents(s: State, a: AgentId, pick: Ptr, child: AgentId, now: int)
    requires a in s.agents && s.agents[a].pc.Dropping? && child !in s.agents
    ensures var s' := Act(s, a, pick, child, now).value;
      && a in s'.agents && s'.agents[a] == s.agents[a].(pc := Waiting(child, s.agents[a].pc.seen))
      && s'.agents.Keys <= s.agents.Keys + {child}
      && (child in s'.agents ==> s'.agents[child].pc.WantShared?)
  {
    hide Held;
  }

  // What the agent that moves has newly finished with.
  lemma FinishShape(s: State, a: AgentId, pick: Ptr, child: AgentId, now: int, p: Ptr)
    requires a in s.agents && Act(s, a, pick, child, now).Some?
    requires var s' := Act(s, a, pick, child, now).value;
      a in s'.agents && p in Finished(s'.agents[a].pc) && p !in Finished(s.agents[a].pc)
    ensures var pc := s.agents[a].pc;
      (pc.Peeked? && pc.p == p && !Held(s, p)) || (pc.Strong? && pc.p == p)
  {
    hide Held, SendTo, BeginDestroy;
    SendToFacts(s, s.agents[a].job.o, Posted(s.agents[a].msg, a));
    match s.agents[a].pc
    case Dropping(_, _) => DropAgents(s, a, pick, child, now);
    case Strong(q, _) => SendToFacts(s, q, Posted(s.agents[a].msg, a));
    case _ =>
  }

  lemma ActFinishes(s: State, a: AgentId, pick: Ptr, child: AgentId, now: int, p: Ptr)
    requires Inv(s) && a in s.agents && Act(s, a, pick, child, now).Some?
    requires var s' := Act(s, a, pick, child, now).value;
      a in s'.agents && p in Finished(s'.agents[a].pc) && p !in Finished(s.agents[a].pc)
    ensures p in s.clients && (!Held(s, p) || Has(Act(s, a, pick, child, now).value, p, Posted(s.agents[a].msg, a)))
  {
    hide Held, LockInv, JobOk, Act, Has, Kept, Unique;
    FinishShape(s, a, pick, child, now, p);
    OwnObject(s, a);
    if s.agents[a].pc.Strong? {
      SendsKept(s, a, pick, child, now);
    }
  }

  // Agents stay, all but the one that moves as they are; a new one has finished with nothing.
  lemma AgentsShape(s: State, ch: Choice, b: AgentId)
    requires Step(s, ch).Some? && b in Step(s, ch).value.agents && !Step(s, ch).value.fault
    ensures var s' := Step(s, ch).value;
      || (b in s.agents && s'.agents[b] == s.agents[b])
      || (b !in s.agents && Finished(s'.agents[b].pc) == {})
      || (b in s.agents && ch.Go? && ch.a == b && s'.agents[b].msg == s.agents[b].msg)
  {
    hide Held, Owned, Act, Q.OnSend, Q.OnWrite;
    if ch.Go? {
      ActShape(s, ch.a, ch.pick, ch.child, ch.now, b);
    }
  }

  lemma ActShape(s: State, a: AgentId, pick: Ptr, child: AgentId, now: int, b: AgentId)
    requires a in s.agents && Act(s, a, pick, child, now).Some? && b in Act(s, a, pick, child, now).value.agents
    requires !Act(s, a, pick, child, now).value.fault
    ensures var s' := Act(s, a, pick, child, now).value;
      if b !in s.agents then Finished(s'.agents[b].pc) == {}
      else if b == a then s'.agents[b].msg == s.agents[b].msg
      else s'.agents[b] == s.agents[b]
  {
    hide Act;
    if b in s.agents && b != a {
      OthersKept(s, a, pick, child, now, b);
    } else if s.agents[a].pc.Dropping? {
      CanDrop(s, a, pick, child, now);
      DropAgents(s, a, pick, child, now);
    } else {
      OnlyItMoves(s, a, pick, child, now);
    }
  }

  lemma ReachedStep(s: State, ch: Choice, b: AgentId)
    requires Inv(s) && Step(s, ch).Some? && AllReached(s) && b in Step(s, ch).value.agents
    ensures Reached(Step(s, ch).value, b, Step(s, ch).value.agents[b])
  {
    hide Inv, Step, Held, Has, Kept, Act;
    var s' := Step(s, ch).value;
    StepInv(s, ch);
    StepKept(s, ch);
    NotFaulty(s');
    AgentsShape(s, ch, b);
    if b in s.agents {
      if InLoop(s.agents[b].pc) {
        StableFor(s, ch, b);
      }
      ReachedKept(s, s', b, s.agents[b]);
      if ch.Go? && ch.a == b {
        NewlyReached(s, ch, b);
      }
    }
  }

  lemma StableFor(s: State, ch: Choice, a: AgentId)
    requires Inv(s) && Step(s, ch).Some? && a in s.agents && InLoop(s.agents[a].pc)
    ensures Step(s, ch).value.clients == s.clients
  {
    SetStable(s, ch, a);
  }

  lemma NewlyReached(s: State, ch: Choice, b: AgentId)
    requires Inv(s) && Step(s, ch).Some? && Kept(s, Step(s, ch).value)
    requires b in s.agents && ch.Go? && ch.a == b
    requires b in Step(s, ch).value.agents && Step(s, ch).value.agents[b].msg == s.agents[b].msg
    ensures var s' := Step(s, ch).value;
      forall p :: p in Finished(s'.agents[b].pc) && p !in Finished(s.agents[b].pc) ==>
        p in s'.clients && (Held(s', p) ==> Has(s', p, Posted(s'.agents[b].msg, b)))
  {
    hide Held, Has, Act, LockInv, AgentOk, Unique;
    var s' := Step(s, ch).value;
    StepInv(s, ch);
    forall p | p in Finished(s'.agents[b].pc) && p !in Finished(s.agents[b].pc)
      ensures p in s'.clients && (Held(s', p) ==> Has(s', p, Posted(s'.agents[b].msg, b)))
    {
      ActFinishes(s, b, ch.pick, ch.child, ch.now, p);
      FinisherInLoop(s, b, ch.pick, ch.child, ch.now, p);
      StableFor(s, ch, b);
    }
  }

  lemma FinisherInLoop(s: State, a: AgentId, pick: Ptr, child: AgentId, now: int, p: Ptr)
    requires a in s.agents && Act(s, a, pick, child, now).Some?
    requires var s' := Act(s, a, pick, child, now).value;
      a in s'.agents && p in Finished(s'.agents[a].pc) && p !in Finished(s.agents[a].pc)
    ensures InLoop(s.agents[a].pc)
  {
    hide Held, SendTo, BeginDestroy;
    SendToFacts(s, s.agents[a].job.o, Posted(s.agents[a].msg, a));
  }

  lemma {:induction false} ExecReached(s: State, cs: seq<Choice>)
    requires Inv(s) && AllReached(s) && Exec(s, cs).Some?
    ensures Inv(Exec(s, cs).value) && AllReached(Exec(s, cs).value)
    decreases |cs|
  {
    hide Inv, Step, Reached;
    if cs != [] {
      var s' := Step(s, cs[0]).value;
      StepInv(s, cs[0]);
      forall b | b in s'.agents
        ensures Reached(s', b, s'.agents[b])
      {
        ReachedStep(s, cs[0], b);
      }
      ExecReached(s', cs[1..]);
    }
  }

  // ---------------------------------------------------------------- at most once

  function From(a: AgentId): Posted -> nat {
    (post: Posted) => if post.sender == a then 1 else 0
  }

  // How often an agent has sent to a connection.
  function Times(s: State, p: Ptr, a: AgentId): nat
    requires p in s.objs
  {
    Sum(s.objs[p].conn.sent, From(a))
  }

  // The agent is past its loop, or past the reply it sends instead of a broadcast.
  predicate Past(pc: Pc) {
    pc.WantExclusive? || pc.InExclusive? || pc.Unlock? || pc.Read? || pc.Free? || pc.Done?
  }

  // The agent will not send to `p` any more: it has, or has decided not to.
  predicate Settled(g: Agent, p: Ptr) {
    || (g.job.Accept? && g.job.o == p && !g.pc.Greet?)
    || p in Finished(g.pc)
    || Past(g.pc)
  }

  predicate Marked(pc: Pc) {
    pc.Peeked? || pc.Strong? ==> pc.p in pc.seen
  }

  ghost predicate OnceFor(s: State, p: Ptr, a: AgentId)
    requires p in s.objs
  {
    Times(s, p, a) <= 1 && (Times(s, p, a) > 0 ==> a in s.agents && Settled(s.agents[a], p))
  }

  ghost predicate Once(s: State) {
    && (forall a :: a in s.agents ==> Marked(s.agents[a].pc))
    && (forall p, a :: p in s.objs ==> OnceFor(s, p, a))
  }

  // The step in which agent `ch.a` sends to `p`.
  predicate Sends(s: State, ch: Choice, p: Ptr) {
    && ch.Go? && ch.a in s.agents
    && var g := s.agents[ch.a];
       ((g.pc.Greet? || g.pc.Complain?) && p == g.job.o) || (g.pc.Strong? && p == g.pc.p)
  }

  lemma SendToSent(s: State, o: Ptr, post: Posted, p: Ptr)
    requires p in SendTo(s, o, post).objs
    ensures p in s.objs
    ensures SendTo(s, o, post).objs[p].conn.sent == s.objs[p].conn.sent + (if p == o then [post] else [])
  {
    assert s.objs[p].conn.sent + [] == s.objs[p].conn.sent;
  }

  lemma DestroySent(s: State, o: Ptr, d: AgentId, now: int, p: Ptr)
    requires p in BeginDestroy(s, o, d, now).objs
    ensures p in s.objs && BeginDestroy(s, o, d, now).objs[p].conn.sent == s.objs[p].conn.sent
  {
  }

  lemma ActSent(s: State, a: AgentId, pick: Ptr, child: AgentId, now: int, p: Ptr)
    requires a in s.agents && Act(s, a, pick, child, now).Some? && p in Act(s, a, pick, child, now).value.objs
    ensures p in s.objs
    ensures Act(s, a, pick, child, now).value.objs[p].conn.sent == s.objs[p].conn.sent
      + (if Sends(s, Go(a, pick, child, now), p) then [Posted(s.agents[a].msg, a)] else [])
  {
    hide Held, SendTo, BeginDestroy;
    var g := s.agents[a];
    if g.pc.Greet? || g.pc.Complain? || g.pc.Strong? {
      SendToSent(s, if g.pc.Strong? then g.pc.p else g.job.o, Posted(g.msg, a), p);
    } else if g.pc.Dropping? {
      DestroySent(s, g.pc.p, child, now, p);
    }
    assert p in s.objs ==> s.objs[p].conn.sent + [] == s.objs[p].conn.sent;
  }

  lemma StepSent(s: State, ch: Choice, p: Ptr)
    requires Inv(s) && Step(s, ch).Some? && p in Step(s, ch).value.objs
    ensures p !in s.objs ==> Step(s, ch).value.objs[p].conn.sent == []
    ensures p in s.objs ==>
      Step(s, ch).value.objs[p].conn.sent ==
        s.objs[p].conn.sent + (if Sends(s, ch, p) then [Posted(s.agents[ch.a].msg, ch.a)] else [])
  {
    hide Held, Owned, Act, LockInv, AgentOk, Unique, Q.Inv, Q.OnSend, Q.OnWrite, Sends;
    match ch
    case Go(a, pick, child, now) => ActSent(s, a, pick, child, now, p);
    case StrandOnSend(o) =>
      assert ObjOk(s.objs[o]);
      StrandSentSame(s.objs[o].conn, false);
      NoGo(s, ch, p);
    case StrandOnWrite(o, error) =>
      assert ObjOk(s.objs[o]);
      StrandSentSame(s.objs[o].conn, error);
      NoGo(s, ch, p);
    case _ => NoGo(s, ch, p);
  }

  lemma NoGo(s: State, ch: Choice, p: Ptr)
    requires !ch.Go?
    ensures !Sends(s, ch, p)
    ensures p in s.objs ==> s.objs[p].conn.sent + [] == s.objs[p].conn.sent
  {
  }

  // An agent that sends has not been settled, and then is.
  lemma SenderSettles(s: State, ch: Choice, p: Ptr)
    requires Inv(s) && Once(s) && Step(s, ch).Some? && Sends(s, ch, p)
    ensures !Settled(s.agents[ch.a], p)
    ensures ch.a in Step(s, ch).value.agents && Settled(Step(s, ch).value.agents[ch.a], p)
  {
    hide Held, LockInv, SendTo, OnceFor, Unique;
    var g := s.agents[ch.a];
    OwnObject(s, ch.a);
    assert Marked(g.pc);
    SendToFacts(s, p, Posted(g.msg, ch.a));
  }

  lemma ActSettled(s: State, a: AgentId, pick: Ptr, child: AgentId, now: int, p: Ptr)
    requires a in s.agents && Act(s, a, pick, child, now).Some? && Settled(s.agents[a], p)
    requires !Act(s, a, pick, child, now).value.fault
    ensures var s' := Act(s, a, pick, child, now).value; a in s'.agents && Settled(s'.agents[a], p)
  {
    if s.agents[a].pc.Dropping? {
      DropAgents(s, a, pick, child, now);
    } else {
      hide Act;
      OnlyItMoves(s, a, pick, child, now);
      ActFollows(s, a, pick, child, now);
    }
  }

  lemma ActMarked(s: State, a: AgentId, pick: Ptr, child: AgentId, now: int)
    requires a in s.agents && Act(s, a, pick, child, now).Some? && Marked(s.agents[a].pc)
    requires !Act(s, a, pick, child, now).value.fault
    ensures var s' := Act(s, a, pick, child, now).value; a in s'.agents && Marked(s'.agents[a].pc)
  {
    if s.agents[a].pc.Dropping? {
      DropAgents(s, a, pick, child, now);
    } else {
      hide Act;
      OnlyItMoves(s, a, pick, child, now);
      ActFollows(s, a, pick, child, now);
    }
  }

  lemma AgentsStay(s: State, ch: Choice, a: AgentId)
    requires Step(s, ch).Some? && a in s.agents
    ensures (ch.Go? && ch.a == a) || (a in Step(s, ch).value.agents && Step(s, ch).value.agents[a] == s.agents[a])
  {
    hide Held, Owned, Act, Q.OnSend, Q.OnWrite;
    if ch.Go? && ch.a != a {
      OthersKept(s, ch.a, ch.pick, ch.child, ch.now, a);
    }
  }

  lemma StepSettled(s: State, ch: Choice, a: AgentId, p: Ptr)
    requires Inv(s) && Step(s, ch).Some? && a in s.agents && Settled(s.agents[a], p)
    ensures a in Step(s, ch).value.agents && Settled(Step(s, ch).value.agents[a], p)
  {
    hide Act, Settled;
    StepInv(s, ch);
    hide Inv;
    AgentsStay(s, ch, a);
    if ch.Go? && ch.a == a {
      ActSettled(s, a, ch.pick, ch.child, ch.now, p);
    }
  }

  lemma OnceStepFor(s: State, ch: Choice, p: Ptr, a: AgentId)
    requires Inv(s) && Once(s) && Step(s, ch).Some? && p in Step(s, ch).value.objs
    ensures OnceFor(Step(s, ch).value, p, a)
  {
    hide Inv, Step, Settled;
    var s' := Step(s, ch).value;
    StepSent(s, ch, p);
    if p in s.objs {
      assert OnceFor(s, p, a);
      if Sends(s, ch, p) {
        SumAppend(s.objs[p].conn.sent, From(a), Posted(s.agents[ch.a].msg, ch.a));
        SenderSettles(s, ch, p);
      } else {
        assert s.objs[p].conn.sent + [] == s.objs[p].conn.sent;
      }
      if Times(s, p, a) > 0 {
        StepSettled(s, ch, a, p);
      }
    } else {
      assert Times(s', p, a) == 0;
    }
  }

  lemma MarkedStep(s: State, ch: Choice, a: AgentId)
    requires Inv(s) && Once(s) && Step(s, ch).Some? && a in Step(s, ch).value.agents
    ensures Marked(Step(s, ch).value.agents[a].pc)
  {
    hide Inv, Held, Owned, Act, OnceFor, Q.OnSend, Q.OnWrite;
    StepInv(s, ch);
    NotFaulty(Step(s, ch).value);
    if a !in s.agents {
      NewcomerStarts(s, ch, a);
    } else if ch.Go? && ch.a == a {
      ActMarked(s, a, ch.pick, ch.child, ch.now);
    } else {
      AgentsStay(s, ch, a);
    }
  }

  lemma NotFaulty(s: State)
    requires Inv(s)
    ensures !s.fault
  {
  }

  // A new agent is at the start of its job.
  lemma NewcomerStarts(s: State, ch: Choice, a: AgentId)
    requires Step(s, ch).Some? && !Step(s, ch).value.fault && a in Step(s, ch).value.agents && a !in s.agents
    ensures var pc := Step(s, ch).value.agents[a].pc; pc.Greet? || pc.Complain? || pc.WantShared?
  {
    hide Held, Owned, Act, Q.OnSend, Q.OnWrite;
    if ch.Go? && s.agents[ch.a].pc.Dropping? {
      CanDrop(s, ch.a, ch.pick, ch.child, ch.now);
      DropAgents(s, ch.a, ch.pick, ch.child, ch.now);
    } else if ch.Go? {
      OnlyItMoves(s, ch.a, ch.pick, ch.child, ch.now);
    }
  }

  lemma CanDrop(s: State, a: AgentId, pick: Ptr, child: AgentId, now: int)
    requires a in s.agents && s.agents[a].pc.Dropping? && Act(s, a, pick, child, now).Some?
    ensures child !in s.agents
  {
    hide Held;
  }

  lemma {:induction false} ExecOnce(s: State, cs: seq<Choice>)
    requires Inv(s) && Once(s) && Exec(s, cs).Some?
    ensures Once(Exec(s, cs).value)
    decreases |cs|
  {
    hide Inv, Step, OnceFor, Marked;
    if cs != [] {
      var s' := Step(s, cs[0]).value;
      StepInv(s, cs[0]);
      forall p, a | p in s'.objs
        ensures OnceFor(s', p, a)
      {
        OnceStepFor(s, cs[0], p, a);
      }
      forall a | a in s'.agents
        ensures Marked(s'.agents[a].pc)
      {
        MarkedStep(s, cs[0], a);
      }
      ExecOnce(s', cs[1..]);
    }
  }

  /** In every interleaving no agent sends to any connection more than once. */
  lemma AtMostOnce(cs: seq<Choice>, s: State, p: Ptr, a: AgentId)
    requires Exec(Init(), cs) == Some(s) && p in s.objs
    ensures Times(s, p, a) <= 1
  {
    hide Exec, Settled, Times;
    InitInv();
    ExecOnce(Init(), cs);
    assert OnceFor(s, p, a);
  }

  /**
    Every live member is told exactly once. In every interleaving, when a broadcast leaves its
    loop, each connection then in the set has been sent the message by this very broadcast, and
    that only once, unless it has no reference left. Equal messages of other broadcasts do not
    count.
   */
  lemma BroadcastMissesNobody(cs: seq<Choice>, s: State, a: AgentId, pick: Ptr, child: AgentId, now: int)
    requires Exec(Init(), cs) == Some(s) && a in s.agents && s.agents[a].pc.Loop?
    requires Step(s, Go(a, pick, child, now)).Some?
    requires a in Step(s, Go(a, pick, child, now)).value.agents
    requires !InLoop(Step(s, Go(a, pick, child, now)).value.agents[a].pc)
    ensures forall p :: p in s.clients ==> p in s.objs
    ensures forall p :: p in s.clients && Held(s, p) ==>
      Times(s, p, a) == 1 && Posted(s.agents[a].msg, a) in s.objs[p].conn.sent
  {
    hide Exec, Held, LockInv, AgentOk, Unique;
    InitInv();
    ExecReached(Init(), cs);
    assert Reached(s, a, s.agents[a]);
    assert s.clients <= Finished(s.agents[a].pc);
    forall p | p in s.clients && Held(s, p)
      ensures Times(s, p, a) == 1
    {
      AtMostOnce(cs, s, p, a);
      SumZero(s.objs[p].conn.sent, From(a));
    }
  }
}
