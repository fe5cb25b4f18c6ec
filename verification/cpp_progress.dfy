/**
  When the C++ room (wschat-cpp/include/server.cpp) gets stuck and when it does not: its handlers
  and destructors always come to rest, and then either all are done or one waits inside its
  broadcast for a destructor that needs the mutex the broadcast holds.
 */
module CppProgress {
  import opened Options
  import opened Messages
  import opened Sums
  import opened CppRoom
  import opened CppDelivery
  import Q = CppQueue

  // ---------------------------------------------------------------- nested destructors

  // An agent that waits does so for a destructor.
  ghost predicate Nested(s: State) {
    forall a :: a in s.agents && s.agents[a].pc.Waiting? ==> IsDestructor(s, s.agents[a].pc.child)
  }

  predicate IsDestructor(s: State, d: AgentId) {
    d in s.agents && s.agents[d].job.Destroy?
  }

  lemma ActJob(s: State, a: AgentId, pick: Ptr, child: AgentId, now: int)
    requires a in s.agents && Act(s, a, pick, child, now).Some?
    ensures var s' := Act(s, a, pick, child, now).value; a in s'.agents && s'.agents[a].job == s.agents[a].job
  {
    hide Held, SendTo, BeginDestroy;
    SendToFacts(s, s.agents[a].job.o, Posted(s.agents[a].msg, a));
    match s.agents[a].pc
    case Strong(q, _) => SendToFacts(s, q, Posted(s.agents[a].msg, a));
    case Dropping(_, _) => DropAgents(s, a, pick, child, now);
    case _ =>
  }

  lemma DestructorStays(s: State, ch: Choice, d: AgentId)
    requires Step(s, ch).Some? && IsDestructor(s, d)
    ensures IsDestructor(Step(s, ch).value, d)
  {
    hide Held, Owned, Act, Q.OnSend, Q.OnWrite;
    AgentsStay(s, ch, d);
    if ch.Go? && ch.a == d {
      ActJob(s, d, ch.pick, ch.child, ch.now);
    }
  }

  // Only an agent that has to run a destructor starts to wait, and then the destructor has started.
  lemma ActWaits(s: State, a: AgentId, pick: Ptr, child: AgentId, now: int)
    requires a in s.agents && Act(s, a, pick, child, now).Some?
    requires var s' := Act(s, a, pick, child, now).value; a in s'.agents && s'.agents[a].pc.Waiting? && !s'.fault
    ensures IsDestructor(Act(s, a, pick, child, now).value, Act(s, a, pick, child, now).value.agents[a].pc.child)
  {
    hide Held, SendTo;
    SendToFacts(s, s.agents[a].job.o, Posted(s.agents[a].msg, a));
    if s.agents[a].pc.Strong? {
      SendToFacts(s, s.agents[a].pc.p, Posted(s.agents[a].msg, a));
    }
  }

  lemma NestedStep(s: State, ch: Choice, a: AgentId)
    requires Inv(s) && Nested(s) && Step(s, ch).Some? && a in Step(s, ch).value.agents
    requires Step(s, ch).value.agents[a].pc.Waiting?
    ensures IsDestructor(Step(s, ch).value, Step(s, ch).value.agents[a].pc.child)
  {
    hide Inv, Act, IsDestructor, Held, Owned, Q.OnSend, Q.OnWrite, BeginDestroy;
    StepInv(s, ch);
    NotFaulty(Step(s, ch).value);
    if a !in s.agents {
      NewcomerStarts(s, ch, a);
    } else if ch.Go? && ch.a == a {
      ActWaits(s, a, ch.pick, ch.child, ch.now);
    } else {
      AgentsStay(s, ch, a);
      DestructorStays(s, ch, s.agents[a].pc.child);
    }
  }

  lemma {:induction false} ExecNested(s: State, cs: seq<Choice>)
    requires Inv(s) && Nested(s) && Exec(s, cs).Some?
    ensures Nested(Exec(s, cs).value)
    decreases |cs|
  {
    hide Inv, Step, IsDestructor;
    if cs != [] {
      var s' := Step(s, cs[0]).value;
      StepInv(s, cs[0]);
      forall a | a in s'.agents && s'.agents[a].pc.Waiting?
        ensures IsDestructor(s', s'.agents[a].pc.child)
      {
        NestedStep(s, cs[0], a);
      }
      ExecNested(s', cs[1..]);
    }
  }

  // ---------------------------------------------------------------- at rest

  // No agent can move; only the I/O runtime may start or complete something.
  ghost predicate AtRest(s: State) {
    forall a, pick, child, now :: Step(s, Go(a, pick, child, now)).None?
  }

  // Whether the next action of an agent there depends on the mutex or on another agent.
  predicate MayBlock(pc: Pc) {
    pc.WantShared? || pc.WantExclusive? || pc.Waiting?
  }

  lemma {:induction false} FreshAgent(agents: map<AgentId, Agent>) returns (d: AgentId)
    ensures d !in agents && forall a :: a in agents ==> a < d
    decreases |agents|
  {
    if agents == map[] {
      d := 0;
    } else {
      var a :| a in agents;
      var rest := agents - {a};
      assert forall b :: b in agents ==> b == a || b in rest;
      d := FreshAgent(rest);
      d := if a < d then d else a + 1;
    }
  }

  // Everywhere else the agent can move.
  lemma Moves(s: State, a: AgentId) returns (pick: Ptr, child: AgentId)
    requires a in s.agents && !s.agents[a].pc.Done? && !MayBlock(s.agents[a].pc)
    ensures Act(s, a, pick, child, 0).Some?
  {
    hide Held, SendTo, BeginDestroy;
    pick := 0;
    child := FreshAgent(s.agents);
    if s.agents[a].pc.Loop? && !(s.clients <= s.agents[a].pc.seen) {
      pick :| pick in s.clients && pick !in s.agents[a].pc.seen;
    }
  }

  lemma NoRest(s: State, a: AgentId)
    requires a in s.agents && !s.agents[a].pc.Done? && !MayBlock(s.agents[a].pc)
    ensures !AtRest(s)
  {
    hide Act;
    var pick, child := Moves(s, a);
    assert Step(s, Go(a, pick, child, 0)).Some?;
  }

  lemma RestBlocks(s: State, a: AgentId)
    requires AtRest(s) && a in s.agents && !s.agents[a].pc.Done?
    ensures MayBlock(s.agents[a].pc)
  {
    hide AtRest;
    if !MayBlock(s.agents[a].pc) {
      NoRest(s, a);
    }
  }

  // At rest nobody holds the mutex in exclusive mode, so nobody waits for it in shared mode.
  lemma RestMutex(s: State, a: AgentId)
    requires Inv(s) && AtRest(s) && a in s.agents && !s.agents[a].pc.Done?
    ensures s.exclusive.None? && !s.agents[a].pc.WantShared?
    ensures s.agents[a].pc.WantExclusive? ==> s.shared != {}
  {
    hide Held, AgentOk, Unique, ObjOk;
    if s.exclusive.Some? {
      RestBlocks(s, s.exclusive.value);
    }
    assert Step(s, Go(a, 0, 0, 0)).None?;
  }

  // What an agent that waits at rest waits for is the other half of a deadlock.
  lemma WaiterIsStuck(s: State, a: AgentId)
    requires Inv(s) && Nested(s) && AtRest(s) && a in s.agents && s.agents[a].pc.Waiting?
    ensures SelfDeadlock(s, a, s.agents[a].pc.child)
  {
    hide Held, AgentOk, Unique, ObjOk, LockInv;
    var d := s.agents[a].pc.child;
    assert IsDestructor(s, d);
    assert Step(s, Go(a, 0, 0, 0)).None?;
    RestBlocks(s, d);
  }

  lemma StuckPair(s: State, b: AgentId) returns (a: AgentId)
    requires Inv(s) && Nested(s) && AtRest(s) && b in s.agents && !s.agents[b].pc.Done?
    ensures a in s.agents && s.agents[a].pc.Waiting?
  {
    hide Held, AgentOk, Unique, ObjOk, AtRest;
    RestBlocks(s, b);
    RestMutex(s, b);
    if s.agents[b].pc.Waiting? {
      a := b;
    } else {
      a :| a in s.shared;
      assert InLoop(s.agents[a].pc);
      RestBlocks(s, a);
    }
  }

  /**
    Exactly when the room is stuck. In every reachable state in which no handler or destructor can
    move, some of them has not finished if and only if one waits, inside its broadcast, for a
    destructor that needs the mutex the broadcast holds.
   */
  lemma StuckIff(cs: seq<Choice>, s: State)
    requires Exec(Init(), cs) == Some(s) && AtRest(s)
    ensures (exists b :: b in s.agents && !s.agents[b].pc.Done?) <==> exists a, d :: SelfDeadlock(s, a, d)
  {
    hide Exec, Inv, AtRest, Nested;
    InitInv();
    NothingNested();
    ExecInv(Init(), cs);
    ExecNested(Init(), cs);
    if b :| b in s.agents && !s.agents[b].pc.Done? {
      var a := StuckPair(s, b);
      WaiterIsStuck(s, a);
    }
  }

  lemma NothingNested()
    ensures Nested(Init())
  {
  }

  // ---------------------------------------------------------------- which runs get stuck

  // A broadcast releases the last reference to the connection it has just sent to.
  ghost predicate DropsLast(s: State, ch: Choice) {
    && ch.Go? && ch.a in s.agents && s.agents[ch.a].pc.Sent?
    && var pc := s.agents[ch.a].pc; !Held(SetPc(s, ch.a, Loop(pc.seen)), pc.p)
  }

  ghost predicate EverDropsLast(s: State, cs: seq<Choice>)
    decreases |cs|
  {
    cs != [] && (DropsLast(s, cs[0]) || (Step(s, cs[0]).Some? && EverDropsLast(Step(s, cs[0]).value, cs[1..])))
  }

  predicate Clear(g: Agent) {
    !g.pc.Dropping? && !g.pc.Waiting?
  }

  ghost predicate AllClear(s: State) {
    forall a :: a in s.agents ==> Clear(s.agents[a])
  }

  // Only such a release leads to a destructor inside a broadcast.
  lemma ReleaseShape(s: State, ch: Choice)
    requires Step(s, ch).Some? && ch.Go? && s.agents[ch.a].pc.Sent?
    ensures var g, s' := s.agents[ch.a], Step(s, ch).value;
      s' == SetPc(s, ch.a, if DropsLast(s, ch) then Dropping(g.pc.p, g.pc.seen) else Loop(g.pc.seen))
  {
    hide Held;
  }

  lemma ClearStep(s: State, ch: Choice, b: AgentId)
    requires Inv(s) && AllClear(s) && !DropsLast(s, ch) && Step(s, ch).Some? && b in Step(s, ch).value.agents
    ensures Clear(Step(s, ch).value.agents[b])
  {
    hide Inv, Held, Owned, Act, DropsLast, Q.OnSend, Q.OnWrite, BeginDestroy;
    StepInv(s, ch);
    NotFaulty(Step(s, ch).value);
    if b !in s.agents {
      NewcomerStarts(s, ch, b);
    } else if ch.Go? && ch.a == b {
      assert Clear(s.agents[b]);
      ActFollows(s, b, ch.pick, ch.child, ch.now);
      if s.agents[b].pc.Sent? {
        ReleaseShape(s, ch);
      }
    } else {
      AgentsStay(s, ch, b);
    }
  }

  lemma {:induction false} ExecClear(s: State, cs: seq<Choice>)
    requires Inv(s) && AllClear(s) && Exec(s, cs).Some? && !EverDropsLast(s, cs)
    ensures AllClear(Exec(s, cs).value)
    decreases |cs|
  {
    hide Inv, Step, Clear, DropsLast;
    if cs != [] {
      var s' := Step(s, cs[0]).value;
      StepInv(s, cs[0]);
      forall b | b in s'.agents
        ensures Clear(s'.agents[b])
      {
        ClearStep(s, cs[0], b);
      }
      ExecClear(s', cs[1..]);
    }
  }

  // An agent that is bound to run a destructor inside its broadcast, or waits there for one.
  ghost predicate Doomed(s: State, a: AgentId) {
    a in s.agents && (s.agents[a].pc.Dropping? || exists d :: SelfDeadlock(s, a, d))
  }

  lemma DoomedStep(s: State, ch: Choice, a: AgentId)
    requires Inv(s) && Doomed(s, a) && Step(s, ch).Some?
    ensures Doomed(Step(s, ch).value, a)
  {
    hide Held, Owned, Act, SelfDeadlock, AgentOk, Unique, ObjOk, LockInv, Q.OnSend, Q.OnWrite;
    if s.agents[a].pc.Dropping? {
      AgentsStay(s, ch, a);
      if ch.Go? && ch.a == a {
        DropDeadlocks(s, a, ch.pick, ch.child, ch.now);
      }
    } else {
      var d :| SelfDeadlock(s, a, d);
      DeadlockStep(s, ch, a, d);
      DeadlockedAgent(Step(s, ch).value, a, d);
    }
  }

  lemma DeadlockedAgent(s: State, a: AgentId, d: AgentId)
    requires SelfDeadlock(s, a, d)
    ensures a in s.agents && !s.agents[a].pc.Done?
  {
  }

  lemma DropDeadlocks(s: State, a: AgentId, pick: Ptr, child: AgentId, now: int)
    requires Inv(s) && a in s.agents && s.agents[a].pc.Dropping? && Act(s, a, pick, child, now).Some?
    ensures SelfDeadlock(Act(s, a, pick, child, now).value, a, child)
    ensures a in Act(s, a, pick, child, now).value.agents
  {
    hide Held, Unique, ObjOk, LockInv, JobOk;
    OwnObjectOrDone(s, a);
  }

  lemma {:induction false} ExecDoomed(s: State, cs: seq<Choice>, a: AgentId)
    requires Inv(s) && Doomed(s, a) && Exec(s, cs).Some?
    ensures Doomed(Exec(s, cs).value, a)
    decreases |cs|
  {
    hide Inv, Step, Doomed;
    if cs != [] {
      StepInv(s, cs[0]);
      DoomedStep(s, cs[0], a);
      ExecDoomed(Step(s, cs[0]).value, cs[1..], a);
    }
  }

  lemma {:induction false} DropDooms(s: State, cs: seq<Choice>) returns (a: AgentId)
    requires Inv(s) && Exec(s, cs).Some? && EverDropsLast(s, cs)
    ensures Doomed(Exec(s, cs).value, a)
    decreases |cs|
  {
    hide Inv, Step, DropsLast, Doomed;
    var s' := Step(s, cs[0]).value;
    StepInv(s, cs[0]);
    if DropsLast(s, cs[0]) {
      JustDoomed(s, cs[0]);
      a := cs[0].a;
      ExecDoomed(s', cs[1..], a);
    } else {
      a := DropDooms(s', cs[1..]);
    }
  }

  lemma JustDoomed(s: State, ch: Choice)
    requires Step(s, ch).Some? && DropsLast(s, ch)
    ensures ch.Go? && Doomed(Step(s, ch).value, ch.a)
  {
    hide Held, Act, Step;
    ReleaseShape(s, ch);
  }

  /**
    Exactly which runs get stuck. A run after which no handler or destructor can move has left one
    unfinished if and only if, at some step of it, a broadcast released the last reference to a
    connection it had just sent to.
   */
  lemma StuckIffDropped(cs: seq<Choice>, s: State)
    requires Exec(Init(), cs) == Some(s) && AtRest(s)
    ensures (exists b :: b in s.agents && !s.agents[b].pc.Done?) <==> EverDropsLast(Init(), cs)
  {
    hide Exec, Inv, AtRest, EverDropsLast, Doomed;
    InitInv();
    if EverDropsLast(Init(), cs) {
      var a := DropDooms(Init(), cs);
      DoomedIsUnfinished(s, a);
    } else {
      ExecClear(Init(), cs);
      StuckIff(cs, s);
      assert forall a :: a in s.agents ==> Clear(s.agents[a]);
    }
  }

  lemma DoomedIsUnfinished(s: State, a: AgentId)
    requires Doomed(s, a)
    ensures a in s.agents && !s.agents[a].pc.Done?
  {
  }

  // ---------------------------------------------------------------- when nothing nests

  // While an agent that has just sent to a connection still holds it, the strand does not take
  // the message out of that connection's posts.
  ghost predicate Calm(s: State, ch: Choice) {
    ch.StrandOnSend? ==> forall a :: a in s.agents && s.agents[a].pc.Sent? ==> s.agents[a].pc.p != ch.o
  }

  ghost predicate AlwaysCalm(s: State, cs: seq<Choice>)
    decreases |cs|
  {
    cs == [] || (Calm(s, cs[0]) && (Step(s, cs[0]).Some? ==> AlwaysCalm(Step(s, cs[0]).value, cs[1..])))
  }

  // The post that was just made keeps the connection alive, so no destructor has to run.
  ghost predicate PostHolds(s: State, g: Agent) {
    && !g.pc.Dropping? && !g.pc.Waiting?
    && (g.pc.Sent? ==> g.pc.p in s.objs && s.objs[g.pc.p].conn.posts != [])
  }

  ghost predicate NoneNests(s: State) {
    forall a :: a in s.agents ==> PostHolds(s, s.agents[a])
  }

  // The posts of a connection that some agent has just sent to stay.
  lemma PostsStay(s: State, ch: Choice, p: Ptr)
    requires Inv(s) && Step(s, ch).Some? && Living(s, p) && s.objs[p].conn.posts != []
    requires ch.StrandOnSend? ==> ch.o != p
    ensures p in Step(s, ch).value.objs && Step(s, ch).value.objs[p].conn.posts != []
  {
    hide Held, Owned, LockInv, Unique, PcOk, ObjOk, Q.OnSend, Q.OnWrite;
    if ch.Go? && s.agents[ch.a].pc.Free? {
      OwnerAlive(s, ch.a);
    }
    if ch.StrandOnWrite? {
      WriteKeepsPosts(s.objs[ch.o].conn, ch.error);
    }
  }

  lemma WriteKeepsPosts(c: Q.Conn<Posted>, error: bool)
    requires c.inflight != []
    ensures Q.OnWrite(c, error).posts == c.posts
  {
  }

  lemma OwnerAlive(s: State, a: AgentId)
    requires Inv(s) && a in s.agents && s.agents[a].pc.Free?
    ensures s.agents[a].job.o in s.objs && s.objs[s.agents[a].job.o].dying
  {
    OwnObject(s, a);
  }

  lemma ActHolds(s: State, a: AgentId, pick: Ptr, child: AgentId, now: int)
    requires Inv(s) && a in s.agents && PostHolds(s, s.agents[a]) && Act(s, a, pick, child, now).Some?
    ensures var s' := Act(s, a, pick, child, now).value; a in s'.agents && PostHolds(s', s'.agents[a])
  {
    hide LockInv, Unique, JobOk, ObjOk, BeginDestroy;
    OwnObjectOrDone(s, a);
    var g := s.agents[a];
    if g.pc.Sent? {
      assert IoHeld(SetPc(s, a, Loop(g.pc.seen)).objs[g.pc.p]);
    } else if g.pc.Greet? || g.pc.Complain? {
      SendToFacts(s, g.job.o, Posted(g.msg, a));
    }
  }

  lemma OwnObjectOrDone(s: State, a: AgentId)
    requires Inv(s) && a in s.agents
    ensures PcOk(s, s.agents[a])
  {
    hide Held, LockInv, Unique, JobOk, ObjOk;
    assert AgentOk(s, s.agents[a]);
  }

  lemma HoldsStep(s: State, ch: Choice, b: AgentId)
    requires Inv(s) && NoneNests(s) && Calm(s, ch) && Step(s, ch).Some? && b in Step(s, ch).value.agents
    ensures PostHolds(Step(s, ch).value, Step(s, ch).value.agents[b])
  {
    hide Inv, Held, Owned, Act, Q.OnSend, Q.OnWrite, BeginDestroy;
    if b !in s.agents {
      StepInv(s, ch);
      NotFaulty(Step(s, ch).value);
      NewcomerStarts(s, ch, b);
    } else {
      assert PostHolds(s, s.agents[b]);
      if ch.Go? && ch.a == b {
        ActHolds(s, b, ch.pick, ch.child, ch.now);
      } else {
        AgentsStay(s, ch, b);
        if s.agents[b].pc.Sent? {
          OwnObjectOrDone(s, b);
          PostsStay(s, ch, s.agents[b].pc.p);
        }
      }
    }
  }

  lemma {:induction false} ExecNoneNests(s: State, cs: seq<Choice>)
    requires Inv(s) && NoneNests(s) && AlwaysCalm(s, cs) && Exec(s, cs).Some?
    ensures NoneNests(Exec(s, cs).value)
    decreases |cs|
  {
    hide Inv, Step, PostHolds, Calm;
    if cs != [] {
      var s' := Step(s, cs[0]).value;
      StepInv(s, cs[0]);
      forall a | a in s'.agents
        ensures PostHolds(s', s'.agents[a])
      {
        HoldsStep(s, cs[0], a);
      }
      ExecNoneNests(s', cs[1..]);
    }
  }

  /**
    A condition under which the room never freezes. If in a run the strand of a connection never
    runs an on_send between a broadcast's send to it and the release of the reference the
    broadcast took, no broadcast ever has to run a destructor; and whenever no handler or
    destructor can move, all have finished.
   */
  lemma CalmNeverFreezes(cs: seq<Choice>, s: State)
    requires Exec(Init(), cs) == Some(s) && AlwaysCalm(Init(), cs)
    ensures forall a :: a in s.agents ==> !s.agents[a].pc.Dropping? && !s.agents[a].pc.Waiting?
    ensures forall a, d :: !SelfDeadlock(s, a, d)
    ensures AtRest(s) ==> forall a :: a in s.agents ==> s.agents[a].pc.Done?
  {
    hide Exec, Inv, AtRest, AlwaysCalm;
    InitInv();
    NobodyNests();
    ExecNoneNests(Init(), cs);
    assert forall a :: a in s.agents ==> PostHolds(s, s.agents[a]);
    if AtRest(s) {
      StuckIff(cs, s);
    }
  }

  lemma NobodyNests()
    ensures NoneNests(Init())
  {
  }

  // One I/O thread: it starts something new only when what it ran before has finished.
  ghost predicate OneThread(s: State, cs: seq<Choice>)
    decreases |cs|
  {
    || cs == []
    || (&& (!cs[0].Go? ==> forall a :: a in s.agents ==> s.agents[a].pc.Done?)
        && (Step(s, cs[0]).Some? ==> OneThread(Step(s, cs[0]).value, cs[1..])))
  }

  lemma {:induction false} OneThreadIsCalm(s: State, cs: seq<Choice>)
    requires OneThread(s, cs)
    ensures AlwaysCalm(s, cs)
    decreases |cs|
  {
    hide Step;
    if cs != [] && Step(s, cs[0]).Some? {
      OneThreadIsCalm(Step(s, cs[0]).value, cs[1..]);
    }
  }

  /** So a server with a single I/O thread never freezes: at rest everything has finished. */
  lemma OneThreadNeverFreezes(cs: seq<Choice>, s: State)
    requires Exec(Init(), cs) == Some(s) && OneThread(Init(), cs)
    ensures forall a, d :: !SelfDeadlock(s, a, d)
    ensures AtRest(s) ==> forall a :: a in s.agents ==> s.agents[a].pc.Done?
  {
    hide Exec, OneThread, AlwaysCalm, AtRest;
    OneThreadIsCalm(Init(), cs);
    CalmNeverFreezes(cs, s);
  }

  // ---------------------------------------------------------------- every burst of work ends

  // At most so many actions are left to an agent, when the pointers in the set are among `all`.
  function Rank(all: set<Ptr>): Agent -> nat {
    (g: Agent) =>
      match g.pc
      case Greet => 7 + 6 * |all|
      case WantShared => 6 + 6 * |all|
      case Loop(seen) => 5 + 6 * |all - seen|
      case Peeked(_, seen) => 10 + 6 * |all - seen|
      case Strong(_, seen) => 9 + 6 * |all - seen|
      case Sent(_, seen) => 8 + 6 * |all - seen|
      case Dropping(_, seen) => 7 + 6 * |all - seen|
      case Waiting(_, seen) => 6 + 6 * |all - seen|
      case WantExclusive => 4
      case InExclusive => 3
      case Complain => 2
      case Unlock => 2
      case Read => 1
      case Free => 1
      case Done => 0
  }

  // A connection can still make one destructor run.
  function Budget(all: set<Ptr>): Obj -> nat {
    (obj: Obj) => if obj.dying then 0 else 6 + 6 * |all|
  }

  ghost function Measure(all: set<Ptr>, s: State): nat {
    MapSum(s.agents, Rank(all)) + MapSum(s.objs, Budget(all))
  }

  lemma OneLess(all: set<Ptr>, seen: set<Ptr>, p: Ptr)
    requires p in all && p !in seen
    ensures |all - (seen + {p})| == |all - seen| - 1
  {
    assert all - (seen + {p}) == (all - seen) - {p};
  }

  // An agent that goes on has less left to do.
  lemma RankFollows(all: set<Ptr>, clients: set<Ptr>, g: Agent, pc: Pc)
    requires Follows(g, clients, pc) && clients <= all
    ensures Rank(all)(g.(pc := pc)) < Rank(all)(g)
  {
    if g.pc.Loop? && pc.Peeked? {
      OneLess(all, g.pc.seen, pc.p);
    } else if g.pc.WantShared? {
      assert all - {} == all;
    }
  }

  // An agent changes no connection but one, which it may free, and enters no destructor by itself.
  predicate OneObj(objs: map<Ptr, Obj>, objs': map<Ptr, Obj>, o: Ptr) {
    || objs' == objs || objs' == objs - {o}
    || (o in objs && o in objs' && objs' == objs[o := objs'[o]] && objs'[o].dying == objs[o].dying)
  }

  lemma SendObjs(s: State, o: Ptr, post: Posted)
    ensures OneObj(s.objs, SendTo(s, o, post).objs, o)
  {
  }

  lemma ActObjs(s: State, a: AgentId, pick: Ptr, child: AgentId, now: int) returns (o: Ptr)
    requires a in s.agents && Act(s, a, pick, child, now).Some? && !s.agents[a].pc.Dropping?
    ensures OneObj(s.objs, Act(s, a, pick, child, now).value.objs, o)
  {
    hide Held, BeginDestroy, SendTo;
    var g := s.agents[a];
    o := if g.pc.Strong? then g.pc.p else g.job.o;
    if g.pc.Greet? || g.pc.Complain? || g.pc.Strong? {
      hide OneObj;
      SendObjs(s, o, Posted(g.msg, a));
    }
  }

  lemma BudgetKept(all: set<Ptr>, objs: map<Ptr, Obj>, objs': map<Ptr, Obj>, o: Ptr)
    requires OneObj(objs, objs', o)
    ensures MapSum(objs', Budget(all)) <= MapSum(objs, Budget(all)) && objs'.Keys <= objs.Keys
  {
    if o in objs && o in objs' {
      assert objs' == objs[o := objs'[o]];
      MapSumUpdate(objs, Budget(all), o, objs'[o]);
    } else if o in objs {
      MapSumRemove(objs, Budget(all), o);
    } else {
      assert objs - {o} == objs;
    }
  }

  lemma DropShape(s: State, a: AgentId, pick: Ptr, child: AgentId, now: int)
    requires a in s.agents && s.agents[a].pc.Dropping? && child !in s.agents && Living(s, s.agents[a].pc.p)
    requires Act(s, a, pick, child, now).Some?
    ensures var s' := Act(s, a, pick, child, now).value;
      var p := s.agents[a].pc.p;
      && child in s'.agents && s'.agents[child].pc.WantShared?
      && s'.agents == s.agents[child := s'.agents[child]][a := s.agents[a].(pc := Waiting(child, s.agents[a].pc.seen))]
      && p in s'.objs && s'.objs == s.objs[p := s'.objs[p]] && s'.objs[p].dying
  {
    hide Held;
  }

  lemma DropDrops(all: set<Ptr>, s: State, a: AgentId, pick: Ptr, child: AgentId, now: int)
    requires a in s.agents && s.agents[a].pc.Dropping? && child !in s.agents && Living(s, s.agents[a].pc.p)
    requires Act(s, a, pick, child, now).Some?
    ensures Measure(all, Act(s, a, pick, child, now).value) < Measure(all, s)
    ensures Act(s, a, pick, child, now).value.objs.Keys == s.objs.Keys
  {
    hide Act;
    DropShape(s, a, pick, child, now);
    var s' := Act(s, a, pick, child, now).value;
    var p, g' := s.agents[a].pc.p, s.agents[a].(pc := Waiting(child, s.agents[a].pc.seen));
    var d := s'.agents[child];
    MapSumUpdate(s.agents, Rank(all), child, d);
    MapSumUpdate(s.agents[child := d], Rank(all), a, g');
    MapSumUpdate(s.objs, Budget(all), p, s'.objs[p]);
  }

  lemma GoDrops(all: set<Ptr>, s: State, ch: Choice)
    requires Inv(s) && s.objs.Keys <= all && ch.Go? && Step(s, ch).Some?
    ensures Measure(all, Step(s, ch).value) < Measure(all, s)
    ensures Step(s, ch).value.objs.Keys <= all
  {
    hide Held, Act, LockInv, Unique, ObjOk, JobOk, Rank, Budget;
    OwnObjectOrDone(s, ch.a);
    if s.agents[ch.a].pc.Dropping? {
      CanDrop(s, ch.a, ch.pick, ch.child, ch.now);
      DropDrops(all, s, ch.a, ch.pick, ch.child, ch.now);
    } else {
      StepInv(s, ch);
      NotFaulty(Step(s, ch).value);
      OnlyItMoves(s, ch.a, ch.pick, ch.child, ch.now);
      ActFollows(s, ch.a, ch.pick, ch.child, ch.now);
      RankFollows(all, s.clients, s.agents[ch.a], Step(s, ch).value.agents[ch.a].pc);
      var o := ActObjs(s, ch.a, ch.pick, ch.child, ch.now);
      BudgetKept(all, s.objs, Step(s, ch).value.objs, o);
      MapSumUpdate(s.agents, Rank(all), ch.a, Step(s, ch).value.agents[ch.a]);
    }
  }

  lemma {:induction false} GoRunBound(all: set<Ptr>, s: State, cs: seq<Choice>)
    requires Inv(s) && s.objs.Keys <= all && Exec(s, cs).Some? && forall i :: 0 <= i < |cs| ==> cs[i].Go?
    ensures |cs| + Measure(all, Exec(s, cs).value) <= Measure(all, s)
    decreases |cs|
  {
    hide Inv, Step, Measure;
    if cs != [] {
      StepInv(s, cs[0]);
      GoDrops(all, s, cs[0]);
      GoRunBound(all, Step(s, cs[0]).value, cs[1..]);
    }
  }

  /**
    From every reachable state the handlers and destructors come to rest, however they are
    scheduled, after a number of actions that the state bounds.
   */
  lemma Settles(before: seq<Choice>, s: State, cs: seq<Choice>)
    requires Exec(Init(), before) == Some(s) && Exec(s, cs).Some? && forall i :: 0 <= i < |cs| ==> cs[i].Go?
    ensures |cs| <= Measure(s.objs.Keys, s)
  {
    hide Exec, Inv, Measure;
    InitInv();
    ExecInv(Init(), before);
    GoRunBound(s.objs.Keys, s, cs);
  }
}
