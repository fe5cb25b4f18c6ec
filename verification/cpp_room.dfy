/**
  The room of the C++ server (wschat-cpp/include/server.cpp, wschat-cpp/include/websocket.cpp):
  a set of raw connection pointers behind a shared mutex, connections whose lifetime is the
  number of shared pointers to them, and any number of I/O threads that run their handlers.

  An agent is one handler or one destructor in progress. Every access to the mutex, the set, a
  reference count, a connection or its strand is one step.
 */
module CppRoom {
  import opened Options
  import opened Messages
  import Q = CppQueue

  type Ptr = nat
  type AgentId = nat

  // A message given to a connection's send, and the agent that gave it: an agent makes one
  // broadcast at most, so the agent tells apart two broadcasts of equal messages.
  datatype Posted = Posted(msg: Message, sender: AgentId)

  // A connection object in memory. `accepting` and `reading` say that a handler of async_accept
  // or async_read is outstanding, and `dying` that the destructor has been entered.
  datatype Obj = Obj(uuid: string, conn: Q.Conn<Posted>, accepting: bool, reading: bool, dying: bool)

  datatype Job =
    | Accept(o: Ptr)
    | Handle(o: Ptr)
    | Destroy(o: Ptr)

  // Where an agent is. In the broadcast loop, `seen` holds the pointers already visited.
  datatype Pc =
    | Greet
    | Complain
    | WantShared
    | Loop(seen: set<Ptr>)
    | Peeked(p: Ptr, seen: set<Ptr>)
    | Strong(p: Ptr, seen: set<Ptr>)
    | Sent(p: Ptr, seen: set<Ptr>)
    | Dropping(p: Ptr, seen: set<Ptr>)
    | Waiting(child: AgentId, seen: set<Ptr>)
    | WantExclusive
    | InExclusive
    | Unlock
    | Read
    | Free
    | Done

  datatype Agent = Agent(job: Job, pc: Pc, msg: Message)

  // `objs` holds the connections whose memory is allocated; `fault` is set when a connection is
  // accessed that is not.
  datatype State = State(
    objs: map<Ptr, Obj>, clients: set<Ptr>, shared: set<AgentId>, exclusive: Option<AgentId>,
    agents: map<AgentId, Agent>, fault: bool)

  datatype ReadResult = Good(msg: Message) | Bad | Failed

  datatype Choice =
    | Run(o: Ptr, uuid: string)
    | Accepted(o: Ptr, a: AgentId, ok: bool, now: int)
    | ReadDone(o: Ptr, a: AgentId, result: ReadResult, now: int)
    | StrandOnSend(o: Ptr)
    | StrandOnWrite(o: Ptr, error: bool)
    | Reap(o: Ptr, a: AgentId, now: int)
    | Go(a: AgentId, pick: Ptr, child: AgentId, now: int)

  function Init(): State {
    State(map[], {}, {}, None, map[], false)
  }

  // ---------------------------------------------------------------- reference counts

  // The agent holds a shared pointer to `o`: its own handler's, or the one weak.lock() gave it.
  predicate HoldsRef(a: Agent, o: Ptr) {
    || ((a.job.Accept? || a.job.Handle?) && a.job.o == o && !a.pc.Done?)
    || ((a.pc.Strong? || a.pc.Sent?) && a.pc.p == o)
  }

  // Some outstanding handler of the I/O runtime holds a shared pointer to the connection.
  predicate IoHeld(obj: Obj) {
    obj.accepting || obj.reading || obj.conn.posts != [] || obj.conn.inflight != []
  }

  // The reference count of `o` is not zero.
  ghost predicate Held(s: State, o: Ptr) {
    (o in s.objs && IoHeld(s.objs[o])) || exists a :: a in s.agents && HoldsRef(s.agents[a], o)
  }

  // The agent runs a handler of `o`, or its destructor, or is bound to run the latter.
  predicate Owns(a: Agent, o: Ptr) {
    || (a.job.o == o && !a.pc.Done?)
    || (a.pc.Dropping? && a.pc.p == o)
  }

  ghost predicate Owned(s: State, o: Ptr) {
    exists a :: a in s.agents && Owns(s.agents[a], o)
  }

  // ---------------------------------------------------------------- steps

  function SetPc(s: State, a: AgentId, pc: Pc): State
    requires a in s.agents
  {
    s.(agents := s.agents[a := s.agents[a].(pc := pc)])
  }

  function SetObj(s: State, o: Ptr, obj: Obj): State {
    s.(objs := s.objs[o := obj])
  }

  // ws->send(ss): an access to the connection, which faults when its memory is gone.
  function SendTo(s: State, o: Ptr, post: Posted): State {
    if o in s.objs then SetObj(s, o, s.objs[o].(conn := Q.Send(s.objs[o].conn, post)))
    else s.(fault := true)
  }

  // The next action of an agent; None when it is blocked or done. `pick` is the element the
  // loop visits next and `child` names the agent of a nested destructor.
  ghost function Act(s: State, a: AgentId, pick: Ptr, child: AgentId, now: int): Option<State>
    requires a in s.agents
  {
    var g := s.agents[a];
    var o := g.job.o;
    match g.pc
    case Greet => Some(SetPc(SendTo(s, o, Posted(g.msg, a)), a, WantShared))
    case Complain => Some(SetPc(SendTo(s, o, Posted(g.msg, a)), a, Read))
    case WantShared =>
      if s.exclusive.Some? then None
      else Some(SetPc(s, a, Loop({})).(shared := s.shared + {a}))
    case Loop(seen) =>
      if s.clients <= seen then
        Some(SetPc(s, a, if g.job.Handle? then Read else WantExclusive).(shared := s.shared - {a}))
      else if pick in s.clients && pick !in seen then
        Some(SetPc(s, a, Peeked(pick, seen + {pick})).(fault := s.fault || pick !in s.objs))
      else None
    case Peeked(p, seen) => Some(SetPc(s, a, if Held(s, p) then Strong(p, seen) else Loop(seen)))
    case Strong(p, seen) => Some(SetPc(SendTo(s, p, Posted(g.msg, a)), a, Sent(p, seen)))
    case Sent(p, seen) =>
      var s' := SetPc(s, a, Loop(seen));
      Some(if Held(s', p) then s' else SetPc(s, a, Dropping(p, seen)))
    case Dropping(p, seen) =>
      if child in s.agents then None else Some(SetPc(BeginDestroy(s, p, child, now), a, Waiting(child, seen)))
    case Waiting(d, seen) =>
      if d in s.agents && s.agents[d].pc.Done? then Some(SetPc(s, a, Loop(seen))) else None
    case WantExclusive =>
      if s.shared != {} || s.exclusive.Some? then None
      else Some(SetPc(s, a, InExclusive).(exclusive := Some(a)))
    case InExclusive =>
      Some(SetPc(s, a, Unlock).(clients := if g.job.Destroy? then s.clients - {o} else s.clients + {o}))
    case Unlock => Some(SetPc(s, a, if g.job.Destroy? then Free else Read).(exclusive := None))
    case Read =>
      if o in s.objs then Some(SetPc(SetObj(s, o, s.objs[o].(reading := true)), a, Done))
      else Some(s.(fault := true))
    case Free => Some(SetPc(s, a, Done).(objs := s.objs - {o}, fault := s.fault || o !in s.objs))
    case Done => None
  }

  // The destructor of `o` is entered by agent `d`.
  function BeginDestroy(s: State, o: Ptr, d: AgentId, now: int): State {
    if o !in s.objs then s.(fault := true)
    else
      var msg := SystemMessage(Disconnect, s.objs[o].uuid, now);
      SetObj(s, o, s.objs[o].(dying := true)).(agents := s.agents[d := Agent(Destroy(o), WantShared, msg)])
  }

  function StartHandler(s: State, o: Ptr, obj: Obj, a: AgentId, g: Agent): State {
    SetObj(s, o, obj).(agents := s.agents[a := g])
  }

  ghost function Step(s: State, ch: Choice): Option<State> {
    match ch
    case Run(o, uuid) =>
      if o in s.objs then None else Some(SetObj(s, o, Obj(uuid, Q.NewConn(), true, false, false)))
    case Accepted(o, a, ok, now) =>
      if o !in s.objs || !s.objs[o].accepting || a in s.agents then None
      else
        var obj := s.objs[o].(accepting := false);
        Some(if ok then StartHandler(s, o, obj, a, Agent(Accept(o), Greet, SystemMessage(Connect, obj.uuid, now)))
             else SetObj(s, o, obj))
    case ReadDone(o, a, result, now) =>
      if o !in s.objs || !s.objs[o].reading || a in s.agents then None
      else
        var obj := s.objs[o].(reading := false);
        Some(match result
             case Good(msg) => StartHandler(s, o, obj, a, Agent(Handle(o), WantShared, msg))
             case Bad => StartHandler(s, o, obj, a, Agent(Handle(o), Complain, SystemMessage(Error, "bad message",
               now)))
             case Failed => SetObj(s, o, obj))
    case StrandOnSend(o) =>
      if o !in s.objs || s.objs[o].conn.posts == [] then None
      else Some(SetObj(s, o, s.objs[o].(conn := Q.OnSend(s.objs[o].conn))))
    case StrandOnWrite(o, error) =>
      if o !in s.objs || s.objs[o].conn.inflight == [] then None
      else Some(SetObj(s, o, s.objs[o].(conn := Q.OnWrite(s.objs[o].conn, error))))
    case Reap(o, a, now) =>
      // The last handler of the I/O runtime that held the connection has just returned.
      if o !in s.objs || s.objs[o].dying || Held(s, o) || Owned(s, o) || a in s.agents then None
      else Some(BeginDestroy(s, o, a, now))
    case Go(a, pick, child, now) => if a in s.agents then Act(s, a, pick, child, now) else None
  }

  ghost function Exec(s: State, cs: seq<Choice>): Option<State>
    decreases |cs|
  {
    if cs == [] then Some(s)
    else match Step(s, cs[0])
      case None => None
      case Some(s') => Exec(s', cs[1..])
  }

  // ---------------------------------------------------------------- the invariant

  predicate InLoop(pc: Pc) {
    pc.Loop? || pc.Peeked? || pc.Strong? || pc.Sent? || pc.Dropping? || pc.Waiting?
  }

  predicate Excludes(pc: Pc) {
    pc.InExclusive? || pc.Unlock?
  }

  // The mutex is held in shared mode by the agents in a broadcast loop, and in exclusive mode by
  // at most one agent, which excludes the former.
  ghost predicate LockInv(s: State) {
    && (forall a :: a in s.shared <==> a in s.agents && InLoop(s.agents[a].pc))
    && (forall a :: s.exclusive == Some(a) <==> a in s.agents && Excludes(s.agents[a].pc))
    && (s.exclusive.Some? ==> s.shared == {})
  }

  ghost predicate OwnConnect(msg: Message, uuid: string) {
    msg.sender == "system" && msg.action == Connect && msg.contents == uuid
  }

  // The connection has been sent its own connect message before everything else.
  ghost predicate Greeted(obj: Obj) {
    obj.conn.sent != [] && OwnConnect(obj.conn.sent[0].msg, obj.uuid)
  }

  ghost predicate ObjOk(obj: Obj) {
    && Q.Inv(obj.conn)
    && (obj.conn.sent == [] || Greeted(obj))
    && (obj.reading ==> Greeted(obj))
    && (obj.accepting ==> obj.conn.sent == [] && !obj.reading)
    && (obj.dying ==> !IoHeld(obj))
  }

  ghost predicate Living(s: State, o: Ptr) {
    o in s.objs && !s.objs[o].dying
  }

  // What holds of the connection whose handler or destructor the agent runs.
  ghost predicate JobOk(s: State, g: Agent) {
    var o := g.job.o;
    match g.job
    case Destroy(_) =>
      && o in s.objs && s.objs[o].dying
      && !g.pc.Greet? && !g.pc.Complain? && !g.pc.Read?
      && (g.pc.Unlock? || g.pc.Free? ==> o !in s.clients)
    case _ =>
      && Living(s, o)
      && (var obj := s.objs[o];
          && !obj.accepting && !obj.reading
          && (if g.pc.Greet?
              then g.job.Accept? && OwnConnect(g.msg, obj.uuid) && obj.conn.sent == []
              else Greeted(obj)))
      && (g.job.Accept? && !g.pc.Unlock? && !g.pc.Read? ==> o !in s.clients)
      && !g.pc.Free?
      && (g.pc.Complain? ==> g.job.Handle?)
      && (g.pc.WantExclusive? || g.pc.InExclusive? || g.pc.Unlock? ==> g.job.Accept?)
  }

  // What holds of the connection an agent visits in the broadcast loop.
  ghost predicate PcOk(s: State, g: Agent) {
    && (g.pc.Peeked? || g.pc.Strong? || g.pc.Sent? || g.pc.Dropping? ==> g.pc.p in s.clients)
    && (g.pc.Strong? || g.pc.Sent? ==> Living(s, g.pc.p))
    && (g.pc.Dropping? ==> Living(s, g.pc.p) && !Held(s, g.pc.p))
  }

  ghost predicate AgentOk(s: State, g: Agent) {
    (!g.pc.Done? ==> JobOk(s, g)) && PcOk(s, g)
  }

  // No two agents run handlers or destructors of one connection.
  ghost predicate Unique(agents: map<AgentId, Agent>) {
    forall a, b, o :: a in agents && b in agents && Owns(agents[a], o) && Owns(agents[b], o) ==> a == b
  }

  ghost predicate Inv(s: State) {
    && LockInv(s)
    && Unique(s.agents)
    && (forall o :: o in s.objs ==> ObjOk(s.objs[o]))
    && (forall o :: o in s.clients ==> o in s.objs && Greeted(s.objs[o]))
    && (forall a :: a in s.agents ==> AgentOk(s, s.agents[a]))
    && !s.fault
  }

  lemma InitInv()
    ensures Inv(Init())
  {
  }

  // ---------------------------------------------------------------- how steps keep it

  // A connection that is held is not being destroyed.
  lemma HeldIsLiving(s: State, o: Ptr)
    requires Inv(s) && Held(s, o)
    ensures Living(s, o)
  {
    if !(o in s.objs && IoHeld(s.objs[o])) {
      var a :| a in s.agents && HoldsRef(s.agents[a], o);
      assert AgentOk(s, s.agents[a]);
    }
  }

  // One connection and one agent, old or new, change; nobody gains a reference to a connection
  // whose count was zero.
  lemma Update(s: State, o: Ptr, obj: Obj, a: AgentId, g: Agent, s': State)
    requires Inv(s) && o in s.objs
    requires s'.objs == s.objs[o := obj] && s'.agents == s.agents[a := g] && s'.clients == s.clients && !s'.fault
    requires LockInv(s')
    requires obj.uuid == s.objs[o].uuid && obj.dying == s.objs[o].dying && ObjOk(obj)
    requires Greeted(s.objs[o]) ==> Greeted(obj)
    requires IoHeld(obj) ==> Held(s, o)
    requires forall b :: b in s.agents && b != a && s.agents[b].job.o == o && !s.agents[b].pc.Done? ==>
      obj.accepting == s.objs[o].accepting && obj.reading == s.objs[o].reading
      && (obj.conn.sent == s.objs[o].conn.sent || Greeted(s.objs[o]))
    requires forall x :: HoldsRef(g, x) ==> Held(s, x)
    requires forall x, b :: Owns(g, x) && b in s.agents && b != a && Owns(s.agents[b], x) ==>
      a in s.agents && Owns(s.agents[a], x)
    requires AgentOk(s', g)
    ensures Inv(s')
  {
    hide Q.Inv, LockInv, OwnConnect, IoHeld, JobOk, PcOk;
    forall b | b in s'.agents
      ensures AgentOk(s', s'.agents[b])
    {
      if b != a {
        assert AgentOk(s, s.agents[b]);
        if s.agents[b].pc.Dropping? {
          DroppedIsUnheld(s, s.agents[b]);
          StillUnheld(s, s', o, a, s.agents[b].pc.p);
        }
        OtherOk(s, o, obj, s.agents[b], s');
      }
    }
  }

  lemma DroppedIsUnheld(s: State, h: Agent)
    requires PcOk(s, h) && h.pc.Dropping?
    ensures h.pc.p in s.objs && !Held(s, h.pc.p)
  {
    hide Held;
  }

  // What an agent knows stays true when another agent changes one connection.
  lemma OtherOk(s: State, o: Ptr, obj: Obj, h: Agent, s': State)
    requires AgentOk(s, h) && o in s.objs && s'.objs == s.objs[o := obj] && s'.clients == s.clients
    requires obj.uuid == s.objs[o].uuid && obj.dying == s.objs[o].dying && (Greeted(s.objs[o]) ==> Greeted(obj))
    requires h.job.o == o && !h.pc.Done? ==>
      obj.accepting == s.objs[o].accepting && obj.reading == s.objs[o].reading
      && (obj.conn.sent == s.objs[o].conn.sent || Greeted(s.objs[o]))
    requires h.pc.Dropping? ==> !Held(s', h.pc.p)
    ensures AgentOk(s', h)
  {
    hide OwnConnect, Held;
  }

  lemma StillUnheld(s: State, s': State, o: Ptr, a: AgentId, p: Ptr)
    requires o in s.objs && p in s.objs && !Held(s, p)
    requires o in s'.objs && s'.objs == s.objs[o := s'.objs[o]]
    requires a in s'.agents && s'.agents == s.agents[a := s'.agents[a]]
    requires IoHeld(s'.objs[o]) ==> Held(s, o)
    requires HoldsRef(s'.agents[a], p) ==> Held(s, p)
    ensures !Held(s', p)
  {
    forall b | b in s'.agents
      ensures !HoldsRef(s'.agents[b], p)
    {
      if b != a {
        assert b in s.agents;
      }
    }
  }

  // One connection changes and no agent does.
  lemma UpdateObj(s: State, o: Ptr, obj: Obj)
    requires Inv(s) && o in s.objs
    requires obj.uuid == s.objs[o].uuid && obj.dying == s.objs[o].dying && ObjOk(obj)
    requires Greeted(s.objs[o]) ==> Greeted(obj)
    requires IoHeld(obj) ==> Held(s, o)
    requires forall b :: b in s.agents && s.agents[b].job.o == o && !s.agents[b].pc.Done? ==>
      obj.accepting == s.objs[o].accepting && obj.reading == s.objs[o].reading
      && (obj.conn.sent == s.objs[o].conn.sent || Greeted(s.objs[o]))
    ensures Inv(SetObj(s, o, obj))
  {
    hide Q.Inv, OwnConnect, IoHeld;
    var s' := SetObj(s, o, obj);
    forall b | b in s.agents
      ensures AgentOk(s', s.agents[b])
    {
      assert AgentOk(s, s.agents[b]);
    }
  }

  // The destructor of an unheld connection is entered.
  lemma BeginDestroyInv(s: State, o: Ptr, d: AgentId, now: int)
    requires Inv(s) && Living(s, o) && !Held(s, o) && !Owned(s, o) && d !in s.agents
    ensures Inv(BeginDestroy(s, o, d, now))
  {
    hide Q.Inv, OwnConnect;
    var s' := BeginDestroy(s, o, d, now);
    forall b | b in s'.agents
      ensures AgentOk(s', s'.agents[b])
    {
      if b != d {
        assert AgentOk(s, s.agents[b]);
        assert HoldsRef(s.agents[b], o) ==> Held(s, o);
        assert Owns(s.agents[b], o) ==> Owned(s, o);
        if s.agents[b].pc.Dropping? {
          assert !Held(s, s.agents[b].pc.p);
          assert !HoldsRef(s'.agents[d], s.agents[b].pc.p);
          StillUnheld(s, s', o, d, s.agents[b].pc.p);
        }
      }
    }
  }

  // ---------------------------------------------------------------- the I/O runtime's steps

  lemma RunInv(s: State, o: Ptr, uuid: string)
    requires Inv(s) && o !in s.objs
    ensures Inv(Step(s, Run(o, uuid)).value)
  {
    hide OwnConnect;
    var s' := Step(s, Run(o, uuid)).value;
    forall b | b in s.agents
      ensures AgentOk(s', s.agents[b])
    {
      assert AgentOk(s, s.agents[b]);
    }
  }

  // The outstanding accept or read of a connection completes with its handler as the agent.
  ghost predicate Starts(before: Obj, obj: Obj, g: Agent) {
    || (before.accepting && obj == before.(accepting := false)
        && g.job.Accept? && g.pc.Greet? && OwnConnect(g.msg, obj.uuid))
    || (before.reading && obj == before.(reading := false)
        && g.job.Handle? && (g.pc.WantShared? || g.pc.Complain?))
  }

  // A handler of the I/O runtime starts to run.
  lemma StartInv(s: State, o: Ptr, obj: Obj, a: AgentId, g: Agent)
    requires Inv(s) && o in s.objs && a !in s.agents && g.job.o == o && !g.job.Destroy?
    requires Starts(s.objs[o], obj, g)
    ensures Inv(StartHandler(s, o, obj, a, g))
  {
    hide Q.Inv, OwnConnect, JobOk, PcOk, LockInv;
    var s' := StartHandler(s, o, obj, a, g);
    assert IoHeld(s.objs[o]) && ObjOk(s.objs[o]);
    NobodyServes(s, o);
    assert forall b :: b in s.agents ==> !Owns(s.agents[b], o) by {
      NobodyOwns(s, o);
    }
    StartedOk(s, o, obj, a, g);
    assert LockInv(s') by {
      StartLock(s, s', a);
    }
    Update(s, o, obj, a, g, s');
  }

  lemma StartLock(s: State, s': State, a: AgentId)
    requires LockInv(s) && a !in s.agents && a in s'.agents && s'.agents == s.agents[a := s'.agents[a]]
    requires !InLoop(s'.agents[a].pc) && !Excludes(s'.agents[a].pc)
    requires s'.shared == s.shared && s'.exclusive == s.exclusive
    ensures LockInv(s')
  {
  }

  lemma NobodyOwns(s: State, o: Ptr)
    requires Inv(s) && o in s.objs && (s.objs[o].accepting || s.objs[o].reading)
    ensures forall b :: b in s.agents ==> !Owns(s.agents[b], o)
  {
    hide Q.Inv, OwnConnect, LockInv;
    NobodyServes(s, o);
    forall b | b in s.agents
      ensures !Owns(s.agents[b], o)
    {
      assert AgentOk(s, s.agents[b]);
      assert IoHeld(s.objs[o]);
    }
  }

  lemma StartedOk(s: State, o: Ptr, obj: Obj, a: AgentId, g: Agent)
    requires Inv(s) && o in s.objs && a !in s.agents && g.job.o == o && !g.job.Destroy?
    requires Starts(s.objs[o], obj, g)
    ensures AgentOk(StartHandler(s, o, obj, a, g), g) && ObjOk(obj) && (Greeted(s.objs[o]) ==> Greeted(obj))
  {
    hide Q.Inv, OwnConnect, LockInv;
    assert ObjOk(s.objs[o]);
    assert s.objs[o].accepting ==> o !in s.clients;
    var s' := StartHandler(s, o, obj, a, g);
    assert JobOk(s', g) && PcOk(s', g);
  }

  lemma NobodyServes(s: State, o: Ptr)
    requires Inv(s) && o in s.objs && (s.objs[o].accepting || s.objs[o].reading)
    ensures forall b :: b in s.agents && s.agents[b].job.o == o ==> s.agents[b].pc.Done?
  {
    assert ObjOk(s.objs[o]);
    forall b | b in s.agents && s.agents[b].job.o == o
      ensures s.agents[b].pc.Done?
    {
    }
  }

  lemma AcceptedInv(s: State, o: Ptr, a: AgentId, ok: bool, now: int)
    requires Inv(s) && Step(s, Accepted(o, a, ok, now)).Some?
    ensures Inv(Step(s, Accepted(o, a, ok, now)).value)
  {
    hide Q.Inv;
    var obj := s.objs[o].(accepting := false);
    if ok {
      StartInv(s, o, obj, a, Agent(Accept(o), Greet, SystemMessage(Connect, obj.uuid, now)));
    } else {
      NobodyServes(s, o);
      UpdateObj(s, o, obj);
    }
  }

  lemma ReadDoneInv(s: State, o: Ptr, a: AgentId, result: ReadResult, now: int)
    requires Inv(s) && Step(s, ReadDone(o, a, result, now)).Some?
    ensures Inv(Step(s, ReadDone(o, a, result, now)).value)
  {
    hide Q.Inv;
    var obj := s.objs[o].(reading := false);
    match result
    case Good(msg) => StartInv(s, o, obj, a, Agent(Handle(o), WantShared, msg));
    case Bad => StartInv(s, o, obj, a, Agent(Handle(o), Complain, SystemMessage(Error, "bad message", now)));
    case Failed =>
      NobodyServes(s, o);
      UpdateObj(s, o, obj);
  }

  lemma StrandInv(s: State, o: Ptr, conn: Q.Conn<Posted>)
    requires Inv(s) && o in s.objs && IoHeld(s.objs[o])
    requires conn.sent == s.objs[o].conn.sent && Q.Inv(conn)
    ensures Inv(SetObj(s, o, s.objs[o].(conn := conn)))
  {
    hide Q.Inv;
    HeldIsLiving(s, o);
    UpdateObj(s, o, s.objs[o].(conn := conn));
  }

  // ---------------------------------------------------------------- the agents' steps

  lemma SendToFacts(s: State, o: Ptr, post: Posted)
    ensures var s' := SendTo(s, o, post);
      s'.agents == s.agents && s'.shared == s.shared && s'.exclusive == s.exclusive && s'.clients == s.clients
  {
  }

  // One agent moves, and the mutex is held accordingly.
  lemma LockUpdate(s: State, s': State, a: AgentId, pc: Pc)
    requires LockInv(s) && a in s.agents && s'.agents == s.agents[a := s.agents[a].(pc := pc)]
    requires s'.shared == if InLoop(pc) then s.shared + {a} else s.shared - {a}
    requires s'.exclusive == if Excludes(pc) then Some(a) else if Excludes(s.agents[a].pc) then None else s.exclusive
    requires InLoop(pc) && !InLoop(s.agents[a].pc) ==> s.exclusive.None?
    requires Excludes(pc) && !Excludes(s.agents[a].pc) ==> s.shared == {} && s.exclusive.None?
    ensures LockInv(s')
  {
  }

  lemma LockStep(s: State, a: AgentId, pick: Ptr, child: AgentId, now: int)
    requires LockInv(s) && a in s.agents && Act(s, a, pick, child, now).Some? && !s.agents[a].pc.Dropping?
    requires !Act(s, a, pick, child, now).value.fault
    ensures LockInv(Act(s, a, pick, child, now).value)
  {
    hide Held, SendTo, LockInv;
    SendToFacts(s, s.agents[a].job.o, Posted(s.agents[a].msg, a));
    if s.agents[a].pc.Strong? {
      SendToFacts(s, s.agents[a].pc.p, Posted(s.agents[a].msg, a));
    }
    var s' := Act(s, a, pick, child, now).value;
    LockFacts(s, a);
    LockUpdate(s, s', a, s'.agents[a].pc);
  }

  lemma LockFacts(s: State, a: AgentId)
    requires LockInv(s) && a in s.agents
    ensures a in s.shared <==> InLoop(s.agents[a].pc)
    ensures s.exclusive == Some(a) <==> Excludes(s.agents[a].pc)
  {
  }

  // The agent moves on without changing any connection.
  lemma MoveInv(s: State, a: AgentId, pc: Pc, s': State)
    requires Inv(s) && a in s.agents && !s.agents[a].pc.Done?
    requires s'.objs == s.objs && s'.clients == s.clients && !s'.fault
      && s'.agents == s.agents[a := s.agents[a].(pc := pc)]
    requires LockInv(s')
    requires (pc.Strong? || pc.Sent?) ==> Held(s, pc.p)
    requires !s.agents[a].pc.Dropping? && !pc.Dropping?
    requires AgentOk(s', s'.agents[a])
    ensures Inv(s')
  {
    hide Q.Inv, OwnConnect, LockInv;
    var o, g := s.agents[a].job.o, s'.agents[a];
    assert o in s.objs by {
      assert AgentOk(s, s.agents[a]);
    }
    assert s.objs == s.objs[o := s.objs[o]];
    assert forall x :: HoldsRef(g, x) && !(pc.Strong? || pc.Sent?) ==> HoldsRef(s.agents[a], x);
    Update(s, o, s.objs[o], a, g, s');
  }

  // What an agent that is not done knows about its own connection.
  lemma OwnObject(s: State, a: AgentId)
    requires Inv(s) && a in s.agents && !s.agents[a].pc.Done?
    ensures JobOk(s, s.agents[a]) && s.agents[a].job.o in s.objs && PcOk(s, s.agents[a])
    ensures !s.agents[a].job.Destroy? ==> Held(s, s.agents[a].job.o)
  {
    assert AgentOk(s, s.agents[a]);
    assert !s.agents[a].job.Destroy? ==> HoldsRef(s.agents[a], s.agents[a].job.o);
  }

  // The agent sends to a connection that it holds: its own, or the one it visits.
  lemma SendInv(s: State, a: AgentId, p: Ptr, pc: Pc)
    requires Inv(s) && a in s.agents
    requires var g := s.agents[a];
      || (g.pc.Greet? && p == g.job.o && pc.WantShared?)
      || (g.pc.Complain? && p == g.job.o && pc.Read?)
      || (g.pc.Strong? && p == g.pc.p && pc == Sent(p, g.pc.seen))
    requires LockInv(SetPc(SendTo(s, p, Posted(s.agents[a].msg, a)), a, pc))
    ensures Inv(SetPc(SendTo(s, p, Posted(s.agents[a].msg, a)), a, pc))
  {
    hide Q.Inv, LockInv, OwnConnect;
    OwnObject(s, a);
    var g := s.agents[a];
    assert HoldsRef(g, p);
    HeldIsLiving(s, p);
    assert ObjOk(s.objs[p]);
    var obj := s.objs[p].(conn := Q.Send(s.objs[p].conn, Posted(g.msg, a)));
    SendObjOk(s.objs[p], Posted(g.msg, a));
    var s' := SetPc(SendTo(s, p, Posted(g.msg, a)), a, pc);
    assert s'.agents[a] == g.(pc := pc);
    assert g.pc.Strong? ==> Greeted(s.objs[p]);
    assert !g.pc.Strong? ==> Owns(g, p);
    Update(s, p, obj, a, g.(pc := pc), s');
  }

  lemma SendObjOk(obj: Obj, post: Posted)
    requires ObjOk(obj) && !obj.accepting && !obj.dying && (Greeted(obj) || OwnConnect(post.msg, obj.uuid))
    ensures var obj' := obj.(conn := Q.Send(obj.conn, post)); ObjOk(obj') && Greeted(obj')
  {
    hide Q.Inv;
    SendConnInv(obj.conn, post);
  }

  lemma SendConnInv(c: Q.Conn<Posted>, post: Posted)
    requires Q.Inv(c)
    ensures Q.Inv(Q.Send(c, post))
  {
  }

  // The actions that only move the agent and the mutex.
  lemma MovesInv(s: State, a: AgentId, pick: Ptr, child: AgentId, now: int)
    requires Inv(s) && a in s.agents && Act(s, a, pick, child, now).Some?
    requires var pc := s.agents[a].pc;
      pc.WantShared? || pc.Loop? || pc.Peeked? || pc.Waiting? || pc.WantExclusive? || pc.Unlock?
    ensures Inv(Act(s, a, pick, child, now).value)
  {
    hide Q.Inv, OwnConnect, Greeted, Held, LockInv;
    OwnObject(s, a);
    var s' := Act(s, a, pick, child, now).value;
    var pc := s'.agents[a].pc;
    assert !s'.fault && s'.agents == s.agents[a := s.agents[a].(pc := pc)];
    LockStep(s, a, pick, child, now);
    if pc.Strong? {
      HeldIsLiving(s, pc.p);
    }
    MoveInv(s, a, pc, s');
  }

  // The visited connection is released.
  lemma ReleaseInv(s: State, a: AgentId, pick: Ptr, child: AgentId, now: int)
    requires Inv(s) && a in s.agents && s.agents[a].pc.Sent?
    ensures Inv(Act(s, a, pick, child, now).value)
  {
    hide Q.Inv, OwnConnect, Greeted, LockInv;
    OwnObject(s, a);
    LockStep(s, a, pick, child, now);
    var g, s' := s.agents[a], Act(s, a, pick, child, now).value;
    if s'.agents[a].pc.Loop? {
      MoveInv(s, a, s'.agents[a].pc, s');
    } else {
      DropInv(s, a, s');
    }
  }

  lemma DropInv(s: State, a: AgentId, s': State)
    requires Inv(s) && a in s.agents && s.agents[a].pc.Sent?
    requires var g := s.agents[a];
      s' == SetPc(s, a, Dropping(g.pc.p, g.pc.seen)) && !Held(SetPc(s, a, Loop(g.pc.seen)), g.pc.p)
    requires LockInv(s')
    ensures Inv(s')
  {
    hide Q.Inv, OwnConnect, Greeted, LockInv, IoHeld;
    OwnObject(s, a);
    var g := s.agents[a];
    var p, o, l := g.pc.p, g.job.o, SetPc(s, a, Loop(g.pc.seen));
    assert HoldsRef(g, p);
    forall b | b in s.agents && b != a
      ensures !HoldsRef(s.agents[b], p) && !Owns(s.agents[b], p)
    {
      assert l.agents[b] == s.agents[b];
      assert AgentOk(s, s.agents[b]);
    }
    assert a in l.agents && !HoldsRef(l.agents[a], p);
    assert !Held(s', p);
    assert s.objs == s.objs[o := s.objs[o]];
    Update(s, o, s.objs[o], a, g.(pc := Dropping(p, g.pc.seen)), s');
  }

  // The agent stops being bound to destroy the connection it visited.
  lemma UndropInv(s: State, a: AgentId, child: AgentId)
    requires Inv(s) && a in s.agents && s.agents[a].pc.Dropping? && child !in s.agents
    ensures var s' := SetPc(s, a, Waiting(child, s.agents[a].pc.seen));
      Inv(s') && Living(s', s.agents[a].pc.p) && !Held(s', s.agents[a].pc.p) && !Owned(s', s.agents[a].pc.p)
  {
    hide Q.Inv, OwnConnect, Greeted, IoHeld;
    OwnObject(s, a);
    var g := s.agents[a];
    var p, o := g.pc.p, g.job.o;
    var g' := g.(pc := Waiting(child, g.pc.seen));
    var s1 := SetPc(s, a, Waiting(child, g.pc.seen));
    assert s.objs == s.objs[o := s.objs[o]];
    Update(s, o, s.objs[o], a, g', s1);
    assert !HoldsRef(g, p) && Owns(g, p);
    forall b | b in s1.agents
      ensures !HoldsRef(s1.agents[b], p) && !Owns(s1.agents[b], p)
    {
      assert !HoldsRef(s.agents[b], p);
    }
  }

  // The destructor of the visited connection starts, inside the loop.
  lemma NestedDestroyInv(s: State, a: AgentId, pick: Ptr, child: AgentId, now: int)
    requires Inv(s) && a in s.agents && s.agents[a].pc.Dropping? && child !in s.agents
    ensures Inv(Act(s, a, pick, child, now).value)
  {
    hide Q.Inv, Greeted, LockInv, JobOk, PcOk, Held, Owned;
    UndropInv(s, a, child);
    var p := s.agents[a].pc.p;
    var s1 := SetPc(s, a, Waiting(child, s.agents[a].pc.seen));
    BeginDestroyInv(s1, p, child, now);
    var s' := Act(s, a, pick, child, now).value;
    assert a != child;
    assert s'.agents == BeginDestroy(s1, p, child, now).agents;
    assert s' == BeginDestroy(s1, p, child, now);
  }

  // The set of clients gains or loses the agent's own connection.
  lemma ExclusiveInv(s: State, a: AgentId, pick: Ptr, child: AgentId, now: int)
    requires Inv(s) && a in s.agents && s.agents[a].pc.InExclusive?
    ensures Inv(Act(s, a, pick, child, now).value)
  {
    hide Q.Inv, OwnConnect, Greeted, IoHeld;
    OwnObject(s, a);
    LockStep(s, a, pick, child, now);
    var g, s' := s.agents[a], Act(s, a, pick, child, now).value;
    assert s.exclusive == Some(a) && s.shared == {};
    forall b | b in s'.agents
      ensures AgentOk(s', s'.agents[b])
    {
      assert AgentOk(s, s.agents[b]);
      assert b !in s.shared;
      if b != a {
        assert !Owns(s.agents[b], g.job.o);
      }
    }
  }

  // The next asynchronous read of the agent's own connection is started.
  lemma ReadInv(s: State, a: AgentId, pick: Ptr, child: AgentId, now: int)
    requires Inv(s) && a in s.agents && s.agents[a].pc.Read?
    ensures Inv(Act(s, a, pick, child, now).value)
  {
    hide Q.Inv, OwnConnect;
    OwnObject(s, a);
    LockStep(s, a, pick, child, now);
    var g, s' := s.agents[a], Act(s, a, pick, child, now).value;
    var o := g.job.o;
    assert Owns(g, o);
    assert ObjOk(s.objs[o]);
    Update(s, o, s.objs[o].(reading := true), a, g.(pc := Done), s');
  }

  // The memory of the agent's own connection is released.
  lemma FreeInv(s: State, a: AgentId, pick: Ptr, child: AgentId, now: int)
    requires Inv(s) && a in s.agents && s.agents[a].pc.Free?
    ensures Inv(Act(s, a, pick, child, now).value)
  {
    hide Q.Inv, OwnConnect, Greeted;
    OwnObject(s, a);
    LockStep(s, a, pick, child, now);
    var g, s' := s.agents[a], Act(s, a, pick, child, now).value;
    var o := g.job.o;
    assert Owns(g, o);
    forall b | b in s'.agents
      ensures AgentOk(s', s'.agents[b])
    {
      assert AgentOk(s, s.agents[b]);
      if b != a {
        assert !Owns(s.agents[b], o);
        if s.agents[b].pc.Dropping? {
          FreedStaysUnheld(s, s', a, o, s.agents[b].pc.p);
        }
      }
    }
  }

  lemma FreedStaysUnheld(s: State, s': State, a: AgentId, o: Ptr, p: Ptr)
    requires s'.objs == s.objs - {o} && a in s.agents && s'.agents == s.agents[a := s.agents[a].(pc := Done)]
    requires !Held(s, p)
    ensures !Held(s', p)
  {
    forall b | b in s'.agents
      ensures !HoldsRef(s'.agents[b], p)
    {
      assert b in s.agents && !HoldsRef(s.agents[b], p);
    }
  }

  lemma ActInv(s: State, a: AgentId, pick: Ptr, child: AgentId, now: int)
    requires Inv(s) && a in s.agents && Act(s, a, pick, child, now).Some?
    ensures Inv(Act(s, a, pick, child, now).value)
  {
    hide Q.Inv, LockInv, JobOk, PcOk, Held, Greeted, Unique;
    var g := s.agents[a];
    var s' := Act(s, a, pick, child, now).value;
    match g.pc
    case Greet => GreetInv(s, a, pick, child, now);
    case Complain => GreetInv(s, a, pick, child, now);
    case Strong(p, seen) => GreetInv(s, a, pick, child, now);
    case Sent(p, seen) => ReleaseInv(s, a, pick, child, now);
    case Dropping(p, seen) => NestedDestroyInv(s, a, pick, child, now);
    case InExclusive => ExclusiveInv(s, a, pick, child, now);
    case Read => ReadInv(s, a, pick, child, now);
    case Free => FreeInv(s, a, pick, child, now);
    case WantShared => MovesInv(s, a, pick, child, now);
    case Loop(_) => MovesInv(s, a, pick, child, now);
    case Peeked(_, _) => MovesInv(s, a, pick, child, now);
    case Waiting(_, _) => MovesInv(s, a, pick, child, now);
    case WantExclusive => MovesInv(s, a, pick, child, now);
    case Unlock => MovesInv(s, a, pick, child, now);
  }

  // The actions that send.
  lemma GreetInv(s: State, a: AgentId, pick: Ptr, child: AgentId, now: int)
    requires Inv(s) && a in s.agents && (s.agents[a].pc.Greet? || s.agents[a].pc.Complain? || s.agents[a].pc.Strong?)
    ensures Inv(Act(s, a, pick, child, now).value)
  {
    hide Q.Inv, LockInv, OwnConnect, Greeted, Unique;
    OwnObject(s, a);
    var g := s.agents[a];
    LockStep(s, a, pick, child, now);
    if g.pc.Strong? {
      SendInv(s, a, g.pc.p, Sent(g.pc.p, g.pc.seen));
    } else {
      SendInv(s, a, g.job.o, if g.pc.Greet? then WantShared else Read);
    }
  }

  lemma StepInv(s: State, ch: Choice)
    requires Inv(s) && Step(s, ch).Some?
    ensures Inv(Step(s, ch).value)
  {
    hide Q.Inv, LockInv, JobOk, PcOk, Held, Greeted, Unique, Act, Q.OnSend, Q.OnWrite, BeginDestroy;
    match ch
    case Run(o, uuid) => RunInv(s, o, uuid);
    case Accepted(o, a, ok, now) => AcceptedInv(s, o, a, ok, now);
    case ReadDone(o, a, result, now) => ReadDoneInv(s, o, a, result, now);
    case StrandOnSend(o) =>
      assert ObjOk(s.objs[o]);
      StrandSentSame(s.objs[o].conn, false);
      StrandInv(s, o, Q.OnSend(s.objs[o].conn));
    case StrandOnWrite(o, error) =>
      assert ObjOk(s.objs[o]);
      StrandSentSame(s.objs[o].conn, error);
      StrandInv(s, o, Q.OnWrite(s.objs[o].conn, error));
    case Reap(o, a, now) => BeginDestroyInv(s, o, a, now);
    case Go(a, pick, child, now) => ActInv(s, a, pick, child, now);
  }

  lemma StrandSentSame(c: Q.Conn<Posted>, error: bool)
    requires Q.Inv(c)
    ensures c.posts != [] ==> Q.Inv(Q.OnSend(c)) && Q.OnSend(c).sent == c.sent
    ensures c.inflight != [] ==> Q.Inv(Q.OnWrite(c, error)) && Q.OnWrite(c, error).sent == c.sent
  {
    if c.posts != [] {
      Q.OnSendInv(c);
    }
    if c.inflight != [] {
      Q.OnWriteInv(c, error);
    }
  }

  lemma {:induction false} ExecInv(s: State, cs: seq<Choice>)
    requires Inv(s) && Exec(s, cs).Some?
    ensures Inv(Exec(s, cs).value)
    decreases |cs|
  {
    if cs != [] {
      StepInv(s, cs[0]);
      ExecInv(Step(s, cs[0]).value, cs[1..]);
    }
  }

  // ---------------------------------------------------------------- theorems over whole runs

  /**
    Pointer lifetime. In every interleaving every pointer in the set refers to allocated memory,
    and so does every pointer a broadcast has taken out of it; no freed connection is ever
    accessed; a broadcast sends only to connections whose reference count is not zero and whose
    destructor has not been entered; and the set never changes under a broadcast's loop.
   */
  lemma PointerLifetime(cs: seq<Choice>, s: State)
    requires Exec(Init(), cs) == Some(s)
    ensures !s.fault
    ensures s.clients <= s.objs.Keys
    ensures forall a :: a in s.agents ==> var pc := s.agents[a].pc;
      && (pc.Peeked? || pc.Strong? || pc.Sent? || pc.Dropping? ==> pc.p in s.objs)
      && (pc.Strong? || pc.Sent? ==> Held(s, pc.p) && !s.objs[pc.p].dying)
      && (InLoop(pc) ==> s.exclusive.None?)
  {
    InitInv();
    ExecInv(Init(), cs);
    hide Q.Inv, Greeted, Unique;
    forall a | a in s.agents
      ensures var pc := s.agents[a].pc;
        && (pc.Peeked? || pc.Strong? || pc.Sent? || pc.Dropping? ==> pc.p in s.objs)
        && (pc.Strong? || pc.Sent? ==> Held(s, pc.p) && !s.objs[pc.p].dying)
        && (InLoop(pc) ==> s.exclusive.None?)
    {
      var g := s.agents[a];
      assert AgentOk(s, g);
      assert g.pc.Strong? || g.pc.Sent? ==> HoldsRef(g, g.pc.p);
      assert InLoop(g.pc) ==> a in s.shared;
    }
  }

  /**
    Connect first. In every interleaving the first message posted to a connection's strand, and
    so the first one written to its socket, is its own connect message; and the set only holds
    connections to which it has been posted.
   */
  lemma ConnectFirst(cs: seq<Choice>, s: State, o: Ptr)
    requires Exec(Init(), cs) == Some(s) && o in s.objs
    ensures var obj := s.objs[o];
      && (obj.conn.sent != [] ==> OwnConnect(obj.conn.sent[0].msg, obj.uuid))
      && (obj.conn.done != [] ==> OwnConnect(obj.conn.done[0].msg, obj.uuid))
      && obj.conn.done <= obj.conn.sent
      && (o in s.clients ==> obj.conn.sent != [])
  {
    InitInv();
    ExecInv(Init(), cs);
    var obj := s.objs[o];
    assert ObjOk(obj);
    assert obj.conn.sent[..|obj.conn.done|] == obj.conn.done;
  }

  // ---------------------------------------------------------------- a destructor inside a broadcast

  // Agent `a` waits in its broadcast loop for the destructor that it had to run there, and that
  // destructor, agent `d`, has still to get the mutex in exclusive mode.
  ghost predicate SelfDeadlock(s: State, a: AgentId, d: AgentId) {
    && a in s.agents && s.agents[a].pc.Waiting? && s.agents[a].pc.child == d
    && d in s.agents && s.agents[d].job.Destroy?
    && (InLoop(s.agents[d].pc) || s.agents[d].pc.WantShared? || s.agents[d].pc.WantExclusive?)
  }

  lemma DeadlockStep(s: State, ch: Choice, a: AgentId, d: AgentId)
    requires LockInv(s) && SelfDeadlock(s, a, d) && Step(s, ch).Some?
    ensures SelfDeadlock(Step(s, ch).value, a, d)
    ensures Step(s, ch).value.clients == s.clients
    ensures Step(s, ch).value.agents[d].job == s.agents[d].job
    ensures Step(s, ch).value.exclusive.None?
  {
    assert a in s.shared && s.exclusive.None?;
    if ch.Go? {
      DeadlockAct(s, ch.a, ch.pick, ch.child, ch.now, a, d);
    }
  }

  // The agents on either side of the deadlock have nothing to do.
  lemma NeitherMoves(s: State, b: AgentId, pick: Ptr, child: AgentId, now: int, a: AgentId, d: AgentId)
    requires LockInv(s) && SelfDeadlock(s, a, d) && b in s.agents && Act(s, b, pick, child, now).Some?
    ensures b != a && !s.agents[b].pc.WantExclusive? && !Excludes(s.agents[b].pc)
    ensures s.exclusive.None?
  {
    hide Held, SendTo;
    assert a in s.shared;
  }

  // An action changes no other agent that there was.
  lemma OthersKept(s: State, b: AgentId, pick: Ptr, child: AgentId, now: int, x: AgentId)
    requires b in s.agents && Act(s, b, pick, child, now).Some? && x in s.agents && x != b
    ensures var s' := Act(s, b, pick, child, now).value; x in s'.agents && s'.agents[x] == s.agents[x]
  {
    hide Held;
  }

  lemma DeadlockAct(s: State, b: AgentId, pick: Ptr, child: AgentId, now: int, a: AgentId, d: AgentId)
    requires LockInv(s) && SelfDeadlock(s, a, d) && b in s.agents && Act(s, b, pick, child, now).Some?
    ensures SelfDeadlock(Act(s, b, pick, child, now).value, a, d)
    ensures Act(s, b, pick, child, now).value.clients == s.clients
    ensures Act(s, b, pick, child, now).value.agents[d].job == s.agents[d].job
    ensures Act(s, b, pick, child, now).value.exclusive.None?
  {
    hide Held, SendTo, LockInv;
    NeitherMoves(s, b, pick, child, now, a, d);
    OthersKept(s, b, pick, child, now, a);
    SendToFacts(s, s.agents[b].job.o, Posted(s.agents[b].msg, b));
    if s.agents[b].pc.Strong? {
      SendToFacts(s, s.agents[b].pc.p, Posted(s.agents[b].msg, b));
    }
    if b != d {
      OthersKept(s, b, pick, child, now, d);
    }
  }

  /**
    When the last reference to a connection is dropped inside a broadcast loop, its destructor
    runs there and needs the mutex that the loop holds. From then on, in every continuation, the
    mutex is never again held in exclusive mode, so no connection ever enters or leaves the set,
    and the connection is never freed.
   */
  lemma {:induction false} NestedDestructorFreezesRoom(s: State, cs: seq<Choice>, a: AgentId, d: AgentId)
    requires Inv(s) && SelfDeadlock(s, a, d) && Exec(s, cs).Some?
    ensures var s' := Exec(s, cs).value;
      && SelfDeadlock(s', a, d)
      && s'.clients == s.clients
      && s'.exclusive.None?
      && s'.agents[d].job == s.agents[d].job && s.agents[d].job.o in s'.objs
    decreases |cs|
  {
    hide Q.Inv, Greeted, Unique, Act, PcOk;
    assert a in s.shared;
    assert AgentOk(s, s.agents[d]);
    if cs != [] {
      StepInv(s, cs[0]);
      DeadlockStep(s, cs[0], a, d);
      NestedDestructorFreezesRoom(Step(s, cs[0]).value, cs[1..], a, d);
    }
  }
}
