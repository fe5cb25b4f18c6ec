/**
  What the handlers and destructors of the C++ room (wschat-cpp/include/websocket.cpp,
  wschat-cpp/include/server.cpp) were started for, and that it gets done. The theorems speak about
  the choices that a run was made of: which connection was accepted, what was read from it, when it
  was reaped.
 */
module CppOrders {
  import opened Messages
  import opened Options
  import opened Sums
  import opened CppRoom
  import opened CppDelivery
  import opened CppProgress
  import Q = CppQueue

  // The uuid that the connection at an address was created with.
  function UuidOf(cs: seq<Choice>, o: Ptr): Option<string> {
    if cs == [] then None
    else
      var ch := cs[|cs| - 1];
      if ch.Run? && ch.o == o then Some(ch.uuid) else UuidOf(cs[..|cs| - 1], o)
  }

  // Choice `i` of a run starts agent `a` with this job and this message: the own connect of an
  // accepted connection, the message read or the complaint that it was none, or the disconnect.
  predicate StartedBy(cs: seq<Choice>, i: nat, a: AgentId, job: Job, msg: Message)
    requires i < |cs|
  {
    match cs[i]
    case Accepted(o, b, ok, now) =>
      b == a && ok && job == Accept(o)
      && UuidOf(cs[..i], o).Some? && msg == Message("system", Connect, UuidOf(cs[..i], o).value, now)
    case ReadDone(o, b, result, now) =>
      b == a && job == Handle(o)
      && (result.Good? ==> msg == result.msg)
      && (result.Bad? ==> msg == Message("system", Error, "bad message", now))
      && !result.Failed?
    case Reap(o, b, now) => b == a && job == Destroy(o) && Parting(cs[..i], o, msg, now)
    case Go(_, _, child, now) => child == a && job.Destroy? && Parting(cs[..i], job.o, msg, now)
    case _ => false
  }

  predicate Parting(cs: seq<Choice>, o: Ptr, msg: Message, now: int) {
    UuidOf(cs, o).Some? && msg == Message("system", Disconnect, UuidOf(cs, o).value, now)
  }

  lemma {:induction false} ExecLast(s: State, cs: seq<Choice>)
    requires cs != [] && Exec(s, cs).Some?
    ensures Exec(s, cs[..|cs| - 1]).Some? && Step(Exec(s, cs[..|cs| - 1]).value, cs[|cs| - 1]) == Exec(s, cs)
    decreases |cs|
  {
    hide Step;
    if |cs| > 1 {
      assert cs[1..][..|cs| - 2] == cs[..|cs| - 1][1..];
      ExecLast(Step(s, cs[0]).value, cs[1..]);
    }
  }

  // Sending, and entering a destructor, change neither the uuid nor whether an accept is awaited.
  lemma SendToFlags(s: State, p: Ptr, post: Posted, o: Ptr)
    requires o in SendTo(s, p, post).objs
    ensures o in s.objs
    ensures SendTo(s, p, post).objs[o] == s.objs[o].(conn := SendTo(s, p, post).objs[o].conn)
  {
  }

  lemma DestroyFlags(s: State, p: Ptr, d: AgentId, now: int, o: Ptr)
    requires o in BeginDestroy(s, p, d, now).objs
    ensures o in s.objs
    ensures BeginDestroy(s, p, d, now).objs[o] ==
      if o == p then s.objs[o].(dying := true) else s.objs[o]
  {
  }

  // What one action of an agent does to a connection, apart from what is sent to it.
  lemma ActFlags(s: State, a: AgentId, pick: Ptr, child: AgentId, now: int, o: Ptr)
    requires a in s.agents && Act(s, a, pick, child, now).Some? && o in Act(s, a, pick, child, now).value.objs
    ensures o in s.objs
    ensures var g, x, y := s.agents[a], s.objs[o], Act(s, a, pick, child, now).value.objs[o];
      && y.uuid == x.uuid && y.accepting == x.accepting
      && (y.reading <==> x.reading || (g.pc.Read? && g.job.o == o))
      && (y.dying <==> x.dying || (g.pc.Dropping? && g.pc.p == o))
  {
    hide Held, SendTo, BeginDestroy;
    var g := s.agents[a];
    if g.pc.Greet? || g.pc.Complain? || g.pc.Strong? {
      SendToFlags(s, if g.pc.Strong? then g.pc.p else g.job.o, Posted(g.msg, a), o);
    } else if g.pc.Dropping? {
      DestroyFlags(s, g.pc.p, child, now, o);
    }
  }

  lemma StepUuid(s: State, ch: Choice, o: Ptr)
    requires Step(s, ch).Some? && o in Step(s, ch).value.objs
    ensures if ch.Run? && ch.o == o then Step(s, ch).value.objs[o].uuid == ch.uuid
            else o in s.objs && Step(s, ch).value.objs[o].uuid == s.objs[o].uuid
  {
    hide Held, Owned, Act, Q.OnSend, Q.OnWrite;
    if ch.Go? {
      ActFlags(s, ch.a, ch.pick, ch.child, ch.now, o);
    }
  }

  lemma {:induction false} UuidsKnown(cs: seq<Choice>, s: State, o: Ptr)
    requires Exec(Init(), cs) == Some(s) && o in s.objs
    ensures UuidOf(cs, o) == Some(s.objs[o].uuid)
    decreases |cs|
  {
    hide Exec, Step;
    if cs == [] {
      NothingYet(s);
    } else {
      var n := |cs| - 1;
      ExecLast(Init(), cs);
      var s0 := Exec(Init(), cs[..n]).value;
      StepUuid(s0, cs[n], o);
      if !(cs[n].Run? && cs[n].o == o) {
        UuidsKnown(cs[..n], s0, o);
      }
    }
  }

  lemma NothingYet(s: State)
    requires Exec(Init(), []) == Some(s)
    ensures s.objs == map[] && s.agents == map[]
  {
  }

  // ---------------------------------------------------------------- why an agent runs

  // An agent keeps its job and its message.
  lemma AgentKeeps(s: State, ch: Choice, a: AgentId)
    requires Inv(s) && Step(s, ch).Some? && a in s.agents
    ensures a in Step(s, ch).value.agents
    ensures Step(s, ch).value.agents[a].job == s.agents[a].job && Step(s, ch).value.agents[a].msg == s.agents[a].msg
  {
    hide Inv, Held, Owned, Act, Q.OnSend, Q.OnWrite;
    StepInv(s, ch);
    NotFaulty(Step(s, ch).value);
    AgentsStay(s, ch, a);
    if ch.Go? && ch.a == a {
      ActJob(s, a, ch.pick, ch.child, ch.now);
      ActShape(s, a, ch.pick, ch.child, ch.now, a);
    }
  }

  lemma DropOrder(s: State, a: AgentId, pick: Ptr, child: AgentId, now: int)
    requires a in s.agents && s.agents[a].pc.Dropping? && child !in s.agents && s.agents[a].pc.p in s.objs
    ensures var s', p := Act(s, a, pick, child, now).value, s.agents[a].pc.p;
      && child in s'.agents && s'.agents[child].job == Destroy(p)
      && s'.agents[child].msg == Message("system", Disconnect, s.objs[p].uuid, now)
  {
    hide Held;
  }

  // The order of a new agent, in the state it comes into.
  lemma NewOrder(s: State, ch: Choice, a: AgentId)
    requires Inv(s) && Step(s, ch).Some? && a in Step(s, ch).value.agents && a !in s.agents
    ensures var g := Step(s, ch).value.agents[a];
      match ch
      case Accepted(o, b, ok, now) =>
        b == a && ok && g.job == Accept(o) && o in s.objs && g.msg == Message("system", Connect, s.objs[o].uuid, now)
      case ReadDone(o, b, result, now) =>
        b == a && g.job == Handle(o) && !result.Failed?
        && (result.Good? ==> g.msg == result.msg)
        && (result.Bad? ==> g.msg == Message("system", Error, "bad message", now))
      case Reap(o, b, now) =>
        b == a && g.job == Destroy(o) && o in s.objs && g.msg == Message("system", Disconnect, s.objs[o].uuid, now)
      case Go(_, _, child, now) =>
        child == a && g.job.Destroy? && g.job.o in s.objs
        && g.msg == Message("system", Disconnect, s.objs[g.job.o].uuid, now)
      case _ => false
  {
    hide Inv, Held, Owned, Act, Q.OnSend, Q.OnWrite;
    if ch.Go? {
      StepInv(s, ch);
      NotFaulty(Step(s, ch).value);
      if s.agents[ch.a].pc.Dropping? {
        CanDrop(s, ch.a, ch.pick, ch.child, ch.now);
        DroppedExists(s, ch.a);
        DropOrder(s, ch.a, ch.pick, ch.child, ch.now);
        DropAgents(s, ch.a, ch.pick, ch.child, ch.now);
      } else {
        OnlyItMoves(s, ch.a, ch.pick, ch.child, ch.now);
      }
    }
  }

  lemma DroppedExists(s: State, a: AgentId)
    requires Inv(s) && a in s.agents && s.agents[a].pc.Dropping?
    ensures s.agents[a].pc.p in s.objs
  {
    hide Held, LockInv, Unique, JobOk, ObjOk;
    OwnObjectOrDone(s, a);
  }

  lemma NewStarted(cs: seq<Choice>, s0: State, s: State, a: AgentId)
    requires cs != [] && Exec(Init(), cs[..|cs| - 1]) == Some(s0) && Step(s0, cs[|cs| - 1]) == Some(s)
    requires Inv(s0) && a in s.agents && a !in s0.agents
    ensures StartedBy(cs, |cs| - 1, a, s.agents[a].job, s.agents[a].msg)
  {
    hide Exec, Step, Inv;
    var ch := cs[|cs| - 1];
    NewOrder(s0, ch, a);
    if ch.Accepted? || ch.Reap? {
      UuidsKnown(cs[..|cs| - 1], s0, ch.o);
    } else if ch.Go? {
      UuidsKnown(cs[..|cs| - 1], s0, s.agents[a].job.o);
    }
  }

  /**
    Why every agent runs. In every reachable state each handler and each destructor was started by
    some choice of the run, for the job and with the message that this choice means: nothing is
    broadcast but the system's connects and disconnects, with the right uuid, and what was read.
   */
  lemma {:induction false} EveryAgentStarted(cs: seq<Choice>, s: State, a: AgentId) returns (i: nat)
    requires Exec(Init(), cs) == Some(s) && a in s.agents
    ensures i < |cs| && StartedBy(cs, i, a, s.agents[a].job, s.agents[a].msg)
    decreases |cs|
  {
    hide Exec, Step, StartedBy, Inv;
    if cs == [] {
      NothingYet(s);
      assert false;
    } else {
      var n := |cs| - 1;
      ExecLast(Init(), cs);
      var s0 := Exec(Init(), cs[..n]).value;
      InitInv();
      ExecInv(Init(), cs[..n]);
      if a in s0.agents {
        i := EveryAgentStarted(cs[..n], s0, a);
        AgentKeeps(s0, cs[n], a);
        SameStart(cs, i, a, s.agents[a].job, s.agents[a].msg);
      } else {
        NewStarted(cs, s0, s, a);
        i := n;
      }
    }
  }

  lemma SameStart(cs: seq<Choice>, i: nat, a: AgentId, job: Job, msg: Message)
    requires i < |cs| - 1
    ensures StartedBy(cs[..|cs| - 1], i, a, job, msg) <==> StartedBy(cs, i, a, job, msg)
  {
    assert cs[..|cs| - 1][..i] == cs[..i];
  }

  // ---------------------------------------------------------------- one agent through a run

  lemma {:induction false} ExecSplit(s: State, cs: seq<Choice>, i: nat)
    requires Exec(s, cs).Some? && i <= |cs|
    ensures Exec(s, cs[..i]).Some? && Exec(Exec(s, cs[..i]).value, cs[i..]) == Exec(s, cs)
    decreases |cs|
  {
    hide Step;
    if i == 0 {
      assert cs[..0] == [] && cs[0..] == cs;
    } else {
      assert cs[1..][..i - 1] == cs[..i][1..] && cs[1..][i - 1..] == cs[i..];
      ExecSplit(Step(s, cs[0]).value, cs[1..], i - 1);
    }
  }

  // The states around choice `i` of a run.
  lemma Around(s: State, cs: seq<Choice>, i: nat) returns (x: State, y: State)
    requires Exec(s, cs).Some? && i < |cs|
    ensures Exec(s, cs[..i]) == Some(x) && Step(x, cs[i]) == Some(y) && Exec(y, cs[i + 1..]) == Exec(s, cs)
  {
    hide Step;
    ExecSplit(s, cs, i);
    x := Exec(s, cs[..i]).value;
    assert cs[i..][0] == cs[i] && cs[i..][1..] == cs[i + 1..];
    y := Step(x, cs[i]).value;
  }

  lemma {:induction false} KeepsAll(s: State, cs: seq<Choice>, a: AgentId)
    requires Inv(s) && Exec(s, cs).Some? && a in s.agents
    ensures a in Exec(s, cs).value.agents
    ensures Exec(s, cs).value.agents[a].job == s.agents[a].job && Exec(s, cs).value.agents[a].msg == s.agents[a].msg
    decreases |cs|
  {
    hide Inv, Step;
    if cs != [] {
      StepInv(s, cs[0]);
      AgentKeeps(s, cs[0], a);
      KeepsAll(Step(s, cs[0]).value, cs[1..], a);
    }
  }

  // The choices that start an agent named in them.
  predicate Starts(ch: Choice, a: AgentId) {
    (ch.Accepted? && ch.ok && ch.a == a) || (ch.ReadDone? && !ch.result.Failed? && ch.a == a) || (ch.Reap? && ch.a == a)
  }

  lemma StartIsNew(s: State, ch: Choice, a: AgentId)
    requires Step(s, ch).Some? && Starts(ch, a)
    ensures a !in s.agents && a in Step(s, ch).value.agents
    ensures ch.ReadDone? ==> Step(s, ch).value.agents[a].pc == if ch.result.Good? then WantShared else Complain
  {
    hide Held, Owned;
  }

  /**
    Every text that is read is handled: its handler has, for ever, the message that was read, or
    the complaint that it was none.
   */
  lemma ReadIsHandled(cs: seq<Choice>, s: State, i: nat)
    requires Exec(Init(), cs) == Some(s) && i < |cs| && cs[i].ReadDone? && !cs[i].result.Failed?
    ensures var ch := cs[i];
      && ch.a in s.agents && s.agents[ch.a].job == Handle(ch.o)
      && (var complaint := Message("system", Error, "bad message", ch.now);
          s.agents[ch.a].msg == if ch.result.Good? then ch.result.msg else complaint)
  {
    hide Exec, Step, Inv;
    var x, y := Around(Init(), cs, i);
    InitInv();
    ExecInv(Init(), cs[..i]);
    StartIsNew(x, cs[i], cs[i].a);
    NewOrder(x, cs[i], cs[i].a);
    StepInv(x, cs[i]);
    KeepsAll(y, cs[i + 1..], cs[i].a);
  }

  // No agent is started twice.
  lemma OneStart(s: State, cs: seq<Choice>, i: nat, k: nat, a: AgentId)
    requires Inv(s) && Exec(s, cs).Some? && i < k < |cs| && Starts(cs[i], a)
    ensures !Starts(cs[k], a)
  {
    hide Exec, Step, Inv, Starts;
    var x, y := Around(s, cs, i);
    StartIsNew(x, cs[i], a);
    ExecInv(s, cs[..i]);
    StepInv(x, cs[i]);
    var rest := cs[i + 1..];
    var x', y' := Around(y, rest, k - i - 1);
    KeepsAll(y, rest[..k - i - 1], a);
    assert rest[k - i - 1] == cs[k];
    if Starts(cs[k], a) {
      StartIsNew(x', cs[k], a);
    }
  }

  // ---------------------------------------------------------------- members are told

  // The agent's broadcast is still to come or under way.
  predicate Pending(pc: Pc) {
    pc.Greet? || pc.WantShared? || InLoop(pc)
  }

  ghost predicate Told(s: State, a: AgentId, p: Ptr) {
    a in s.agents ==> Pending(s.agents[a].pc) || Has(s, p, Posted(s.agents[a].msg, a))
  }

  lemma LoopExit(s: State, a: AgentId, pick: Ptr, child: AgentId, now: int)
    requires a in s.agents && s.agents[a].pc.Loop? && Act(s, a, pick, child, now).Some?
    requires var s' := Act(s, a, pick, child, now).value; a in s'.agents && !Pending(s'.agents[a].pc)
    ensures s.clients <= s.agents[a].pc.seen
  {
    hide Held;
  }

  lemma ActClients(s: State, a: AgentId, pick: Ptr, child: AgentId, now: int)
    requires a in s.agents && s.agents[a].pc.InExclusive? && Act(s, a, pick, child, now).Some?
    ensures var g := s.agents[a];
      Act(s, a, pick, child, now).value.clients ==
        if g.job.Destroy? then s.clients - {g.job.o} else s.clients + {g.job.o}
  {
    hide Held;
  }

  // A member that is referenced stays one.
  lemma MemberStays(s: State, ch: Choice, p: Ptr)
    requires Inv(s) && Step(s, ch).Some? && p in s.clients && Held(s, p)
    ensures p in Step(s, ch).value.clients
  {
    hide Held, Owned, Act, LockInv, AgentOk, Unique, ObjOk, Q.OnSend, Q.OnWrite;
    HeldIsLiving(s, p);
    if ch.Go? {
      if s.agents[ch.a].pc.InExclusive? {
        ActClients(s, ch.a, ch.pick, ch.child, ch.now);
        OwnObject(s, ch.a);
      } else {
        ClientsChange(s, ch.a, ch.pick, ch.child, ch.now);
      }
    }
  }

  lemma HasKept(s: State, s': State, p: Ptr, post: Posted)
    requires Kept(s, s') && Has(s, p, post) && p in s'.objs
    ensures Has(s', p, post)
  {
    hide Held;
  }

  lemma ToldMoves(s: State, a: AgentId, pick: Ptr, child: AgentId, now: int, p: Ptr)
    requires Inv(s) && AllReached(s) && a in s.agents && Act(s, a, pick, child, now).Some?
    requires p in s.clients && Held(s, p) && Told(s, a, p) && !Act(s, a, pick, child, now).value.fault
    ensures var s' := Act(s, a, pick, child, now).value;
      a in s'.agents && (Pending(s'.agents[a].pc) || Has(s, p, Posted(s.agents[a].msg, a)))
  {
    hide Inv, Act, Held, Has;
    if s.agents[a].pc.Dropping? {
      DropWaits(s, a, pick, child, now);
    } else {
      OnlyItMoves(s, a, pick, child, now);
      ActFollows(s, a, pick, child, now);
      var s' := Act(s, a, pick, child, now).value;
      if s.agents[a].pc.Loop? && !Pending(s'.agents[a].pc) {
        LoopExit(s, a, pick, child, now);
        assert Reached(s, a, s.agents[a]);
      }
    }
  }

  lemma DropWaits(s: State, a: AgentId, pick: Ptr, child: AgentId, now: int)
    requires a in s.agents && s.agents[a].pc.Dropping? && Act(s, a, pick, child, now).Some?
    ensures a in Act(s, a, pick, child, now).value.agents && Act(s, a, pick, child, now).value.agents[a].pc.Waiting?
  {
    CanDrop(s, a, pick, child, now);
    DropAgents(s, a, pick, child, now);
  }

  // Only a bad text starts an agent that has nothing to broadcast.
  lemma NewIsPending(s: State, ch: Choice, a: AgentId)
    requires Inv(s) && Step(s, ch).Some? && a in Step(s, ch).value.agents && a !in s.agents
    requires !(ch.ReadDone? && ch.a == a && ch.result.Bad?)
    ensures Pending(Step(s, ch).value.agents[a].pc)
  {
    hide Inv, Held, Owned, Act, Q.OnSend, Q.OnWrite;
    if ch.Go? {
      StepInv(s, ch);
      NotFaulty(Step(s, ch).value);
      if s.agents[ch.a].pc.Dropping? {
        CanDrop(s, ch.a, ch.pick, ch.child, ch.now);
        DropAgents(s, ch.a, ch.pick, ch.child, ch.now);
      } else {
        OnlyItMoves(s, ch.a, ch.pick, ch.child, ch.now);
      }
    }
  }

  lemma ToldStep(s: State, ch: Choice, a: AgentId, p: Ptr)
    requires Inv(s) && AllReached(s) && Step(s, ch).Some? && p in s.clients && Held(s, p) && Told(s, a, p)
    requires !(ch.ReadDone? && ch.a == a && ch.result.Bad?) && p in Step(s, ch).value.objs
    ensures Told(Step(s, ch).value, a, p)
  {
    hide Inv, AllReached, Held, Has, Kept, Step, Act;
    StepInv(s, ch);
    NotFaulty(Step(s, ch).value);
    var s' := Step(s, ch).value;
    StepKept(s, ch);
    if a in s'.agents {
      if a !in s.agents {
        NewIsPending(s, ch, a);
      } else {
        AgentKeeps(s, ch, a);
        AgentsStay(s, ch, a);
        if ch.Go? && ch.a == a {
          GoIsAct(s, ch);
          ToldMoves(s, a, ch.pick, ch.child, ch.now, p);
        }
        if Has(s, p, Posted(s.agents[a].msg, a)) {
          HasKept(s, s', p, Posted(s.agents[a].msg, a));
        }
      }
    }
  }

  lemma GoIsAct(s: State, ch: Choice)
    requires ch.Go? && Step(s, ch).Some?
    ensures ch.a in s.agents && Act(s, ch.a, ch.pick, ch.child, ch.now) == Step(s, ch)
  {
    hide Act;
  }

  // The run creates no connection at this address.
  predicate NotReused(cs: seq<Choice>, p: Ptr) {
    forall k :: 0 <= k < |cs| ==> !(cs[k].Run? && cs[k].o == p)
  }

  lemma {:induction false} StaysGone(s: State, cs: seq<Choice>, p: Ptr)
    requires Exec(s, cs).Some? && NotReused(cs, p) && p !in s.objs
    ensures p !in Exec(s, cs).value.objs
    decreases |cs|
  {
    hide Step;
    if cs != [] {
      if p in Step(s, cs[0]).value.objs {
        StepUuid(s, cs[0], p);
      }
      StaysGone(Step(s, cs[0]).value, cs[1..], p);
    }
  }

  // What is referenced at the end of a run was so all along.
  lemma {:induction false} HeldBack(s: State, cs: seq<Choice>, p: Ptr)
    requires Inv(s) && Exec(s, cs).Some? && NotReused(cs, p) && p in s.objs
    requires p in Exec(s, cs).value.objs && Held(Exec(s, cs).value, p)
    ensures Held(s, p)
    decreases |cs|
  {
    hide Inv, Step, Held;
    if cs != [] {
      var s' := Step(s, cs[0]).value;
      StepInv(s, cs[0]);
      StepKept(s, cs[0]);
      if p !in s'.objs {
        StaysGone(s', cs[1..], p);
      }
      HeldBack(s', cs[1..], p);
    }
  }

  lemma {:induction false} ToldAll(s: State, cs: seq<Choice>, a: AgentId, p: Ptr)
    requires Inv(s) && AllReached(s) && Exec(s, cs).Some? && NotReused(cs, p) && p in s.clients && p in s.objs
    requires p in Exec(s, cs).value.objs && Held(Exec(s, cs).value, p) && Told(s, a, p)
    requires forall k :: 0 <= k < |cs| ==> !(cs[k].ReadDone? && cs[k].a == a && cs[k].result.Bad?)
    ensures Told(Exec(s, cs).value, a, p)
    decreases |cs|
  {
    hide Inv, Step, Held, Told, AllReached;
    if cs != [] {
      var s' := Step(s, cs[0]).value;
      HeldBack(s, cs, p);
      StepInv(s, cs[0]);
      ReachedAll(s, cs[0]);
      if p !in s'.objs {
        StaysGone(s', cs[1..], p);
      }
      MemberStays(s, cs[0], p);
      ToldStep(s, cs[0], a, p);
      ToldAll(s', cs[1..], a, p);
    }
  }

  lemma ReachedAll(s: State, ch: Choice)
    requires Inv(s) && AllReached(s) && Step(s, ch).Some?
    ensures AllReached(Step(s, ch).value)
  {
    hide Inv, Step, Reached;
    forall b | b in Step(s, ch).value.agents
      ensures Reached(Step(s, ch).value, b, Step(s, ch).value.agents[b])
    {
      ReachedStep(s, ch, b);
    }
  }

  /**
    Every broadcast gets to every member. If a connection is in the set before an agent starts,
    other than for a bad text, and is still referenced when that agent has finished, it has been
    sent the agent's message exactly once.
   */
  lemma MembersAreTold(before: seq<Choice>, s1: State, during: seq<Choice>, s2: State, a: AgentId, p: Ptr)
    requires Exec(Init(), before) == Some(s1) && Exec(s1, during) == Some(s2)
    requires a !in s1.agents && a in s2.agents && s2.agents[a].pc.Done?
    requires forall k :: 0 <= k < |during| ==> !(during[k].ReadDone? && during[k].a == a && during[k].result.Bad?)
    requires p in s1.clients && NotReused(during, p) && p in s2.objs && Held(s2, p)
    ensures Times(s2, p, a) == 1 && Posted(s2.agents[a].msg, a) in s2.objs[p].conn.sent
  {
    hide Exec, Inv, Held, AllReached, Times;
    InitInv();
    NothingReached();
    ExecReached(Init(), before);
    ClientsExist(s1, p);
    ToldAll(s1, during, a, p);
    ExecAppend(Init(), before, s1, during);
    AtMostOnce(before + during, s2, p, a);
    SentOnce(s2, p, a);
  }

  lemma SentOnce(s: State, p: Ptr, a: AgentId)
    requires p in s.objs && a in s.agents && Posted(s.agents[a].msg, a) in s.objs[p].conn.sent && Times(s, p, a) <= 1
    ensures Times(s, p, a) == 1
  {
    SumZero(s.objs[p].conn.sent, From(a));
  }

  lemma NothingReached()
    ensures AllReached(Init())
  {
  }

  lemma ClientsExist(s: State, p: Ptr)
    requires Inv(s) && p in s.clients
    ensures p in s.objs
  {
  }

  lemma {:induction false} ExecAppend(s: State, a: seq<Choice>, s1: State, b: seq<Choice>)
    requires Exec(s, a) == Some(s1) && Exec(s1, b).Some?
    ensures Exec(s, a + b) == Exec(s1, b)
    decreases |a|
  {
    hide Step;
    if a == [] {
      assert a + b == b;
    } else {
      assert (a + b)[1..] == a[1..] + b;
      ExecAppend(Step(s, a[0]).value, a[1..], s1, b);
    }
  }

  /**
    What was read gets to every member. When a text with message m has been read and its handler
    has finished, every connection that was in the set before and is still referenced has been sent
    m, by this handler, exactly once.
   */
  lemma ReadReachesMembers(before: seq<Choice>, s1: State, during: seq<Choice>, s2: State, i: nat, p: Ptr)
    requires Exec(Init(), before) == Some(s1) && Exec(s1, during) == Some(s2)
    requires i < |during| && during[i].ReadDone? && during[i].result.Good?
    requires during[i].a in s2.agents && s2.agents[during[i].a].pc.Done?
    requires p in s1.clients && NotReused(during, p) && p in s2.objs && Held(s2, p)
    ensures Times(s2, p, during[i].a) == 1
    ensures Posted(during[i].result.msg, during[i].a) in s2.objs[p].conn.sent
  {
    hide Exec, Inv, Held, Times, Step;
    var a := during[i].a;
    InitInv();
    ExecInv(Init(), before);
    var x, y := Around(s1, during, i);
    StartIsNew(x, during[i], a);
    if a in s1.agents {
      KeepsAll(s1, during[..i], a);
    }
    forall k | 0 <= k < |during|
      ensures !(during[k].ReadDone? && during[k].a == a && during[k].result.Bad?)
    {
      if k < i {
        StartedOnce(s1, during, k, i, a);
      } else if i < k {
        StartedOnce(s1, during, i, k, a);
      }
    }
    ExecAppend(Init(), before, s1, during);
    assert (before + during)[|before| + i] == during[i];
    ReadIsHandled(before + during, s2, |before| + i);
    MembersAreTold(before, s1, during, s2, a, p);
  }

  lemma StartedOnce(s: State, cs: seq<Choice>, i: nat, k: nat, a: AgentId)
    requires Inv(s) && Exec(s, cs).Some? && i < k < |cs|
    ensures !(Starts(cs[i], a) && Starts(cs[k], a))
  {
    hide Exec, Inv, Starts;
    if Starts(cs[i], a) {
      OneStart(s, cs, i, k, a);
    }
  }

  // ---------------------------------------------------------------- complaints stay private

  // An agent started for a bad text sends to nobody but its own connection, and to that before it
  // goes on.
  ghost predicate Complains(s: State, a: AgentId, o: Ptr) {
    && a in s.agents && s.agents[a].job == Handle(o)
    && (s.agents[a].pc.Complain? || s.agents[a].pc.Read? || s.agents[a].pc.Done?)
    && (forall p :: p in s.objs && p != o ==> Times(s, p, a) == 0)
  }

  ghost predicate HasComplained(s: State, a: AgentId, o: Ptr) {
    a in s.agents && (s.agents[a].pc.Complain? || (o in s.objs ==> Has(s, o, Posted(s.agents[a].msg, a))))
  }

  lemma ComplainsMoves(s: State, ch: Choice, a: AgentId, o: Ptr)
    requires Inv(s) && Step(s, ch).Some? && Complains(s, a, o)
    ensures var s' := Step(s, ch).value;
      && a in s'.agents && s'.agents[a].job == Handle(o)
      && (s'.agents[a].pc.Complain? || s'.agents[a].pc.Read? || s'.agents[a].pc.Done?)
      && (s.agents[a].pc.Complain? && !s'.agents[a].pc.Complain? ==> Sends(s, ch, o) && ch.a == a)
      && (s'.agents[a].pc.Complain? ==> s.agents[a].pc.Complain?)
  {
    hide Inv, Held, Act, Times, Step;
    StepInv(s, ch);
    NotFaulty(Step(s, ch).value);
    AgentKeeps(s, ch, a);
    AgentsStay(s, ch, a);
    if ch.Go? && ch.a == a {
      GoIsAct(s, ch);
      ActFollows(s, a, ch.pick, ch.child, ch.now);
    }
  }

  lemma SenderIs(s: State, ch: Choice, a: AgentId, p: Ptr)
    requires Sends(s, ch, p) && ch.a == a && Complains(s, a, s.agents[a].job.o)
    ensures p == s.agents[a].job.o
  {
    hide Times;
  }

  lemma ComplainsTimes(s: State, ch: Choice, a: AgentId, o: Ptr, p: Ptr)
    requires Inv(s) && Step(s, ch).Some? && Complains(s, a, o) && p in Step(s, ch).value.objs && p != o
    ensures Times(Step(s, ch).value, p, a) == 0
  {
    hide Inv, Held, Step;
    StepSent(s, ch, p);
    if p in s.objs {
      assert Times(s, p, a) == 0;
      if Sends(s, ch, p) {
        SumAppend(s.objs[p].conn.sent, From(a), Posted(s.agents[ch.a].msg, ch.a));
        if ch.a == a {
          SenderIs(s, ch, a, p);
        }
      } else {
        assert s.objs[p].conn.sent + [] == s.objs[p].conn.sent;
      }
    }
  }

  lemma ComplainsStep(s: State, ch: Choice, a: AgentId, o: Ptr)
    requires Inv(s) && Step(s, ch).Some? && Complains(s, a, o)
    ensures Complains(Step(s, ch).value, a, o)
  {
    hide Inv, Step, Times, Sends;
    ComplainsMoves(s, ch, a, o);
    forall p | p in Step(s, ch).value.objs && p != o
      ensures Times(Step(s, ch).value, p, a) == 0
    {
      ComplainsTimes(s, ch, a, o, p);
    }
  }

  lemma HasComplainedStep(s: State, ch: Choice, a: AgentId, o: Ptr)
    requires Inv(s) && Step(s, ch).Some? && Complains(s, a, o) && HasComplained(s, a, o)
    requires !(ch.Run? && ch.o == o)
    ensures HasComplained(Step(s, ch).value, a, o)
  {
    hide Inv, Step, Times, Held, Complains, Kept;
    var s' := Step(s, ch).value;
    ComplainsMoves(s, ch, a, o);
    AgentKeeps(s, ch, a);
    if o in s'.objs && !s'.agents[a].pc.Complain? {
      StepUuid(s, ch, o);
      StepSent(s, ch, o);
      if Sends(s, ch, o) && ch.a == a {
        assert Posted(s.agents[a].msg, a) in s'.objs[o].conn.sent;
      } else {
        StepKept(s, ch);
        HasKept(s, s', o, Posted(s.agents[a].msg, a));
      }
    }
  }

  lemma {:induction false} ComplainsAll(s: State, cs: seq<Choice>, a: AgentId, o: Ptr)
    requires Inv(s) && Exec(s, cs).Some? && Complains(s, a, o)
    ensures Complains(Exec(s, cs).value, a, o)
    ensures HasComplained(s, a, o) && NotReused(cs, o) ==> HasComplained(Exec(s, cs).value, a, o)
    decreases |cs|
  {
    hide Inv, Step, Complains, HasComplained;
    if cs != [] {
      StepInv(s, cs[0]);
      ComplainsStep(s, cs[0], a, o);
      if HasComplained(s, a, o) && NotReused(cs, o) {
        HasComplainedStep(s, cs[0], a, o);
      }
      ComplainsAll(Step(s, cs[0]).value, cs[1..], a, o);
    }
  }

  // A new agent has sent nothing.
  lemma NewHasSentNothing(s: State, ch: Choice, a: AgentId, p: Ptr)
    requires Inv(s) && Once(s) && Step(s, ch).Some? && a !in s.agents && p in Step(s, ch).value.objs
    ensures Times(Step(s, ch).value, p, a) == 0
  {
    hide Inv, Step, Settled;
    StepSent(s, ch, p);
    if p in s.objs {
      assert OnceFor(s, p, a);
      if Sends(s, ch, p) {
        SumAppend(s.objs[p].conn.sent, From(a), Posted(s.agents[ch.a].msg, ch.a));
      } else {
        assert s.objs[p].conn.sent + [] == s.objs[p].conn.sent;
      }
    }
  }

  lemma BadStarts(s: State, ch: Choice)
    requires Inv(s) && Once(s) && Step(s, ch).Some? && ch.ReadDone? && ch.result.Bad?
    ensures Complains(Step(s, ch).value, ch.a, ch.o) && HasComplained(Step(s, ch).value, ch.a, ch.o)
  {
    hide Inv, Once, Step, Times;
    StartIsNew(s, ch, ch.a);
    NewOrder(s, ch, ch.a);
    forall p | p in Step(s, ch).value.objs && p != ch.o
      ensures Times(Step(s, ch).value, p, ch.a) == 0
    {
      NewHasSentNothing(s, ch, ch.a, p);
    }
  }

  /**
    A bad text is answered to its own sender alone. Its handler never sends to any other connection;
    and when it has finished, it has sent its own the error message exactly once.
   */
  lemma BadReplyIsPrivate(cs: seq<Choice>, s: State, i: nat)
    requires Exec(Init(), cs) == Some(s) && i < |cs| && cs[i].ReadDone? && cs[i].result.Bad?
    ensures var a, o := cs[i].a, cs[i].o;
      && (forall p :: p in s.objs && p != o ==> Times(s, p, a) == 0)
      && a in s.agents
      && (s.agents[a].pc.Done? && o in s.objs && NotReused(cs[i + 1..], o) ==>
            && Times(s, o, a) == 1
            && Posted(Message("system", Error, "bad message", cs[i].now), a) in s.objs[o].conn.sent)
  {
    hide Exec, Inv, Step, Times, Once;
    var a, o := cs[i].a, cs[i].o;
    var x, y := Around(Init(), cs, i);
    InitInv();
    NothingSent();
    ExecInv(Init(), cs[..i]);
    ExecOnce(Init(), cs[..i]);
    BadStarts(x, cs[i]);
    StepInv(x, cs[i]);
    ComplainsAll(y, cs[i + 1..], a, o);
    ReadIsHandled(cs, s, i);
    if s.agents[a].pc.Done? && o in s.objs && NotReused(cs[i + 1..], o) {
      AtMostOnce(cs, s, o, a);
      SentOnce(s, o, a);
    }
  }

  lemma NothingSent()
    ensures Once(Init())
  {
  }

  // ---------------------------------------------------------------- who is accepted, who is read

  // By the choices of a run the connection at an address has been accepted.
  predicate IsAccepted(cs: seq<Choice>, o: Ptr) {
    if cs == [] then false
    else
      var ch := cs[|cs| - 1];
      if ch.Run? && ch.o == o then false
      else if ch.Accepted? && ch.o == o then ch.ok
      else IsAccepted(cs[..|cs| - 1], o)
  }

  // By them it is still listened to: it was accepted and no read of it has failed.
  predicate IsHeard(cs: seq<Choice>, o: Ptr) {
    if cs == [] then false
    else
      var ch := cs[|cs| - 1];
      if ch.Run? && ch.o == o then false
      else if ch.Accepted? && ch.o == o then ch.ok
      else if ch.ReadDone? && ch.o == o then !ch.result.Failed?
      else IsHeard(cs[..|cs| - 1], o)
  }

  // Some handler of the connection is at work.
  ghost predicate Busy(s: State, o: Ptr) {
    exists a :: a in s.agents && Works(s.agents[a], o)
  }

  predicate Works(g: Agent, o: Ptr) {
    g.job.o == o && !g.job.Destroy? && !g.pc.Done?
  }

  ghost predicate Heard(s: State, o: Ptr)
    requires o in s.objs
  {
    s.objs[o].reading || Busy(s, o)
  }

  // By them it waits to be accepted.
  predicate IsAwaited(cs: seq<Choice>, o: Ptr) {
    if cs == [] then false
    else
      var ch := cs[|cs| - 1];
      if ch.Run? && ch.o == o then true
      else if ch.Accepted? && ch.o == o then false
      else IsAwaited(cs[..|cs| - 1], o)
  }

  lemma NobodyOnMissing(s: State, o: Ptr)
    requires Inv(s) && o !in s.objs
    ensures !Busy(s, o)
    ensures forall a :: a in s.agents && s.agents[a].job.o == o ==> s.agents[a].pc.Done?
  {
    hide Held, LockInv, Unique, ObjOk, PcOk;
    forall a | a in s.agents && s.agents[a].job.o == o
      ensures s.agents[a].pc.Done?
    {
      assert AgentOk(s, s.agents[a]);
    }
  }

  lemma OnlyReadEnds(s: State, a: AgentId, pick: Ptr, child: AgentId, now: int)
    requires Inv(s) && a in s.agents && !s.agents[a].job.Destroy? && Act(s, a, pick, child, now).Some?
    requires var s' := Act(s, a, pick, child, now).value; a in s'.agents && s'.agents[a].pc.Done? && !s'.fault
    ensures s.agents[a].pc.Read?
  {
    hide Inv, Act, Held;
    if s.agents[a].pc.Dropping? {
      DropWaits(s, a, pick, child, now);
    } else {
      ActFollows(s, a, pick, child, now);
      if s.agents[a].pc.Free? {
        FreeDestroys(s, a);
      }
    }
  }

  lemma FreeDestroys(s: State, a: AgentId)
    requires Inv(s) && a in s.agents && s.agents[a].pc.Free?
    ensures s.agents[a].job.Destroy?
  {
    OwnObject(s, a);
  }

  lemma GoBusy(s: State, ch: Choice, o: Ptr)
    requires Inv(s) && ch.Go? && Step(s, ch).Some? && o in Step(s, ch).value.objs
    ensures o in s.objs && (Heard(Step(s, ch).value, o) <==> Heard(s, o))
  {
    hide Inv, Step, Act, Held;
    var s' := Step(s, ch).value;
    StepInv(s, ch);
    NotFaulty(s');
    GoIsAct(s, ch);
    ActFlags(s, ch.a, ch.pick, ch.child, ch.now, o);
    AgentKeeps(s, ch, ch.a);
    if Busy(s, o) {
      var a :| a in s.agents && Works(s.agents[a], o);
      AgentsStay(s, ch, a);
      if a == ch.a && s'.agents[a].pc.Done? {
        OnlyReadEnds(s, a, ch.pick, ch.child, ch.now);
      } else {
        assert Works(s'.agents[a], o);
      }
    }
    if Busy(s', o) {
      var a :| a in s'.agents && Works(s'.agents[a], o);
      if a !in s.agents {
        NewOrder(s, ch, a);
      } else {
        AgentsStay(s, ch, a);
        if a == ch.a {
          DoneIsDone(s, ch);
        }
        assert Works(s.agents[a], o);
      }
    }
    if s.agents[ch.a].pc.Read? && s.agents[ch.a].job.o == o {
      ReaderWorks(s, ch.a);
    }
  }

  lemma DoneIsDone(s: State, ch: Choice)
    requires ch.Go? && Step(s, ch).Some?
    ensures ch.a in s.agents && !s.agents[ch.a].pc.Done?
  {
    hide Held;
  }

  lemma ReaderWorks(s: State, a: AgentId)
    requires Inv(s) && a in s.agents && s.agents[a].pc.Read?
    ensures !s.agents[a].job.Destroy? && Works(s.agents[a], s.agents[a].job.o)
  {
    OwnObject(s, a);
  }

  // The other choices start at most one handler, of the connection they name.
  lemma IoBusy(s: State, ch: Choice, o: Ptr)
    requires Inv(s) && !ch.Go? && Step(s, ch).Some? && o in Step(s, ch).value.objs
    ensures Heard(Step(s, ch).value, o) <==>
      if ch.Run? && ch.o == o then false
      else if ch.Accepted? && ch.o == o then ch.ok
      else if ch.ReadDone? && ch.o == o then !ch.result.Failed?
      else o in s.objs && Heard(s, o)
  {
    hide Inv, Held, Owned, Q.OnSend, Q.OnWrite;
    var s' := Step(s, ch).value;
    if ch.Run? && ch.o == o {
      NobodyOnMissing(s, o);
    }
    if (ch.Accepted? || ch.ReadDone?) && ch.o == o {
      IoIdle(s, ch);
    }
    assert forall a :: a in s.agents ==> a in s'.agents && s'.agents[a] == s.agents[a];
    if ch.Accepted? && ch.ok {
      assert Works(s'.agents[ch.a], ch.o);
    } else if ch.ReadDone? && !ch.result.Failed? {
      assert Works(s'.agents[ch.a], ch.o);
    }
  }

  lemma IoIdle(s: State, ch: Choice)
    requires Inv(s) && Step(s, ch).Some? && (ch.Accepted? || ch.ReadDone?)
    ensures ch.o in s.objs && !Busy(s, ch.o) && (ch.Accepted? ==> !s.objs[ch.o].reading)
  {
    hide Held, Owned, LockInv, Unique, AgentOk, Q.Inv;
    NobodyServes(s, ch.o);
    assert ObjOk(s.objs[ch.o]);
  }

  lemma {:induction false} HeardKnown(cs: seq<Choice>, s: State, o: Ptr)
    requires Exec(Init(), cs) == Some(s) && o in s.objs
    ensures Heard(s, o) <==> IsHeard(cs, o)
    decreases |cs|
  {
    hide Exec, Step, Heard, Inv;
    if cs == [] {
      NothingYet(s);
    } else {
      var n := |cs| - 1;
      ExecLast(Init(), cs);
      var s0 := Exec(Init(), cs[..n]).value;
      InitInv();
      ExecInv(Init(), cs[..n]);
      StepUuid(s0, cs[n], o);
      if cs[n].Go? {
        GoBusy(s0, cs[n], o);
      } else {
        IoBusy(s0, cs[n], o);
      }
      if !(cs[n].Run? && cs[n].o == o) {
        HeardKnown(cs[..n], s0, o);
      }
    }
  }

  // ---------------------------------------------------------------- who is a member

  // A handler is about to make the connection a member.
  ghost predicate Joining(s: State, o: Ptr) {
    exists a :: a in s.agents && Joins(s.agents[a], o)
  }

  predicate Joins(g: Agent, o: Ptr) {
    g.job == Accept(o) && !g.pc.Unlock? && !g.pc.Read? && !g.pc.Done?
  }

  ghost predicate Leaving(s: State, o: Ptr) {
    exists a :: a in s.agents && Leaves(s.agents[a], o)
  }

  predicate Leaves(g: Agent, o: Ptr) {
    g.job == Destroy(o) && !g.pc.Done?
  }

  ghost predicate MemberOk(s: State, o: Ptr, accepted: bool)
    requires o in s.objs
  {
    if s.objs[o].dying then Leaving(s, o) else (o in s.clients <==> accepted && !Joining(s, o))
  }

  lemma ActFrees(s: State, a: AgentId, pick: Ptr, child: AgentId, now: int)
    requires a in s.agents && s.agents[a].pc.Free? && Act(s, a, pick, child, now).Some?
    ensures s.agents[a].job.o !in Act(s, a, pick, child, now).value.objs
  {
    hide Held;
  }

  // Only the release of the memory ends a destructor.
  lemma OnlyFreeEnds(s: State, a: AgentId, pick: Ptr, child: AgentId, now: int)
    requires Inv(s) && a in s.agents && s.agents[a].job.Destroy? && Act(s, a, pick, child, now).Some?
    requires var s' := Act(s, a, pick, child, now).value; a in s'.agents && s'.agents[a].pc.Done? && !s'.fault
    ensures s.agents[a].pc.Free?
  {
    hide Inv, Act, Held;
    if s.agents[a].pc.Dropping? {
      DropWaits(s, a, pick, child, now);
    } else {
      ActFollows(s, a, pick, child, now);
      if s.agents[a].pc.Read? {
        ReaderWorks(s, a);
      }
    }
  }

  lemma GoLeaving(s: State, ch: Choice, o: Ptr)
    requires Inv(s) && ch.Go? && Step(s, ch).Some? && o in Step(s, ch).value.objs
    requires Leaving(s, o) || (s.agents[ch.a].pc.Dropping? && s.agents[ch.a].pc.p == o)
    ensures Leaving(Step(s, ch).value, o)
  {
    hide Inv, Step, Act, Held;
    var s' := Step(s, ch).value;
    StepInv(s, ch);
    NotFaulty(s');
    GoIsAct(s, ch);
    if Leaving(s, o) {
      var a :| a in s.agents && Leaves(s.agents[a], o);
      AgentKeeps(s, ch, a);
      AgentsStay(s, ch, a);
      if a == ch.a && s'.agents[a].pc.Done? {
        OnlyFreeEnds(s, a, ch.pick, ch.child, ch.now);
        ActFrees(s, a, ch.pick, ch.child, ch.now);
      } else {
        assert Leaves(s'.agents[a], o);
      }
    } else {
      CanDrop(s, ch.a, ch.pick, ch.child, ch.now);
      DroppedExists(s, ch.a);
      DropOrder(s, ch.a, ch.pick, ch.child, ch.now);
      DropAgents(s, ch.a, ch.pick, ch.child, ch.now);
      assert Leaves(s'.agents[ch.child], o);
    }
  }

  // The agents about to make `o` a member, after a step.
  lemma GoJoining(s: State, ch: Choice, o: Ptr)
    requires Inv(s) && ch.Go? && Step(s, ch).Some?
    ensures ch.a in s.agents
    ensures Joining(Step(s, ch).value, o) <==>
      Joining(s, o) && !(s.agents[ch.a].job == Accept(o) && s.agents[ch.a].pc.InExclusive?)
  {
    hide Inv, Step, Act, Held, Owned;
    var s' := Step(s, ch).value;
    StepInv(s, ch);
    NotFaulty(s');
    GoIsAct(s, ch);
    if Joining(s', o) {
      var a :| a in s'.agents && Joins(s'.agents[a], o);
      if a !in s.agents {
        NewOrder(s, ch, a);
      }
      AgentKeeps(s, ch, a);
      AgentsStay(s, ch, a);
      if a == ch.a {
        JoinsBefore(s, ch, o);
      }
      assert Joins(s.agents[a], o);
      if s.agents[ch.a].job == Accept(o) && s.agents[ch.a].pc.InExclusive? {
        OneOwner(s, a, ch.a, o);
        InsertedNext(s, ch, o);
      }
    }
    if Joining(s, o) && !(s.agents[ch.a].job == Accept(o) && s.agents[ch.a].pc.InExclusive?) {
      var a :| a in s.agents && Joins(s.agents[a], o);
      AgentKeeps(s, ch, a);
      AgentsStay(s, ch, a);
      if a == ch.a {
        JoinsAfter(s, ch, o);
      }
      assert Joins(s'.agents[a], o);
    }
  }

  lemma OneOwner(s: State, a: AgentId, b: AgentId, o: Ptr)
    requires Inv(s) && a in s.agents && b in s.agents
    requires s.agents[a].job.o == o && s.agents[b].job.o == o && !s.agents[a].pc.Done? && !s.agents[b].pc.Done?
    ensures a == b
  {
    assert Owns(s.agents[a], o) && Owns(s.agents[b], o);
  }

  lemma InsertedNext(s: State, ch: Choice, o: Ptr)
    requires ch.Go? && Step(s, ch).Some? && s.agents[ch.a].pc.InExclusive?
    ensures ch.a in Step(s, ch).value.agents && Step(s, ch).value.agents[ch.a].pc.Unlock?
  {
    hide Held;
  }

  lemma JoinsBefore(s: State, ch: Choice, o: Ptr)
    requires ch.Go? && Step(s, ch).Some? && !Step(s, ch).value.fault && s.agents[ch.a].job == Accept(o)
    requires ch.a in Step(s, ch).value.agents && Joins(Step(s, ch).value.agents[ch.a], o)
    ensures Joins(s.agents[ch.a], o)
  {
    hide Step, Act;
    GoIsAct(s, ch);
    if !s.agents[ch.a].pc.Dropping? {
      ActFollows(s, ch.a, ch.pick, ch.child, ch.now);
      if s.agents[ch.a].pc.Unlock? {
        UnlockReads(s, ch.a, ch.pick, ch.child, ch.now);
      }
    }
  }

  lemma UnlockReads(s: State, a: AgentId, pick: Ptr, child: AgentId, now: int)
    requires a in s.agents && s.agents[a].pc.Unlock? && s.agents[a].job.Accept? && Act(s, a, pick, child, now).Some?
    ensures var s' := Act(s, a, pick, child, now).value; a in s'.agents && s'.agents[a].pc.Read?
  {
    hide Held;
  }

  lemma JoinsAfter(s: State, ch: Choice, o: Ptr)
    requires Inv(s) && ch.Go? && Step(s, ch).Some? && !Step(s, ch).value.fault && Joins(s.agents[ch.a], o)
    requires !s.agents[ch.a].pc.InExclusive? && ch.a in Step(s, ch).value.agents
    requires Step(s, ch).value.agents[ch.a].job == Accept(o)
    ensures Joins(Step(s, ch).value.agents[ch.a], o)
  {
    hide Inv, Step, Act, Held;
    GoIsAct(s, ch);
    OwnObject(s, ch.a);
    NotForAccept(s, ch.a);
    if s.agents[ch.a].pc.Dropping? {
      DropWaits(s, ch.a, ch.pick, ch.child, ch.now);
    } else {
      ActFollows(s, ch.a, ch.pick, ch.child, ch.now);
      if s.agents[ch.a].pc.Loop? {
        LoopGoesOn(s, ch.a, ch.pick, ch.child, ch.now);
      }
    }
  }

  lemma LoopGoesOn(s: State, a: AgentId, pick: Ptr, child: AgentId, now: int)
    requires a in s.agents && s.agents[a].pc.Loop? && s.agents[a].job.Accept? && Act(s, a, pick, child, now).Some?
    ensures var s' := Act(s, a, pick, child, now).value; a in s'.agents && !s'.agents[a].pc.Read?
  {
    hide Held;
  }

  lemma NotForAccept(s: State, a: AgentId)
    requires a in s.agents && JobOk(s, s.agents[a]) && s.agents[a].job.Accept?
    ensures !s.agents[a].pc.Complain? && !s.agents[a].pc.Free?
  {
  }

  // How an agent's action changes the set.
  lemma GoMembers(s: State, ch: Choice, o: Ptr)
    requires Inv(s) && ch.Go? && Step(s, ch).Some?
    ensures ch.a in s.agents
    ensures var g := s.agents[ch.a];
      o in Step(s, ch).value.clients <==>
        if g.pc.InExclusive? && g.job.o == o then !g.job.Destroy? else o in s.clients
  {
    hide Inv, Act, Held;
    if s.agents[ch.a].pc.InExclusive? {
      ActClients(s, ch.a, ch.pick, ch.child, ch.now);
    } else {
      ClientsChange(s, ch.a, ch.pick, ch.child, ch.now);
    }
  }

  lemma InserterAccepts(s: State, a: AgentId)
    requires Inv(s) && a in s.agents && s.agents[a].pc.InExclusive?
    ensures s.agents[a].job.o in s.objs
    ensures if s.agents[a].job.Destroy? then s.objs[s.agents[a].job.o].dying
            else s.agents[a].job.Accept? && !s.objs[s.agents[a].job.o].dying
  {
    OwnObject(s, a);
  }

  lemma GoMember(s: State, ch: Choice, o: Ptr, accepted: bool)
    requires Inv(s) && ch.Go? && Step(s, ch).Some? && o in Step(s, ch).value.objs && o in s.objs
    requires MemberOk(s, o, accepted) && (Joining(s, o) ==> accepted)
    ensures MemberOk(Step(s, ch).value, o, accepted) && (Joining(Step(s, ch).value, o) ==> accepted)
  {
    hide Inv, Step, Act, Held, Joining, Leaving;
    GoIsAct(s, ch);
    ActFlags(s, ch.a, ch.pick, ch.child, ch.now, o);
    GoJoining(s, ch, o);
    GoMembers(s, ch, o);
    if Step(s, ch).value.objs[o].dying {
      GoLeaving(s, ch, o);
    } else if s.agents[ch.a].pc.InExclusive? {
      InserterAccepts(s, ch.a);
      if s.agents[ch.a].job == Accept(o) {
        JoinsNow(s, ch.a, o);
      }
    }
  }

  lemma JoinsNow(s: State, a: AgentId, o: Ptr)
    requires a in s.agents && s.agents[a].job == Accept(o) && s.agents[a].pc.InExclusive?
    ensures Joining(s, o)
  {
    assert Joins(s.agents[a], o);
  }

  lemma IoMember(s: State, ch: Choice, o: Ptr, accepted: bool)
    requires Inv(s) && !ch.Go? && Step(s, ch).Some? && o in Step(s, ch).value.objs
    requires !(ch.Run? && ch.o == o) ==> o in s.objs && MemberOk(s, o, accepted) && (Joining(s, o) ==> accepted)
    ensures var accepted' :=
      if ch.Run? && ch.o == o then false else if ch.Accepted? && ch.o == o then ch.ok else accepted;
      MemberOk(Step(s, ch).value, o, accepted') && (Joining(Step(s, ch).value, o) ==> accepted')
  {
    if ch.Run? && ch.o == o {
      hide Inv, Held, Owned, Q.OnSend, Q.OnWrite;
      NobodyOnMissing(s, o);
      MissingIsNoMember(s, o);
    } else {
      IoOther(s, ch, o, accepted);
    }
  }

  lemma IoOther(s: State, ch: Choice, o: Ptr, accepted: bool)
    requires Inv(s) && !ch.Go? && Step(s, ch).Some? && !(ch.Run? && ch.o == o) && o in Step(s, ch).value.objs
    requires o in s.objs && MemberOk(s, o, accepted) && (Joining(s, o) ==> accepted)
    ensures var accepted' := if ch.Accepted? && ch.o == o then ch.ok else accepted;
      MemberOk(Step(s, ch).value, o, accepted') && (Joining(Step(s, ch).value, o) ==> accepted')
  {
    if ch.Accepted? && ch.o == o {
      IoAccepted(s, ch);
    } else {
      IoElsewhere(s, ch, o, accepted);
    }
  }

  lemma IoAccepted(s: State, ch: Choice)
    requires Inv(s) && ch.Accepted? && Step(s, ch).Some? && ch.o in s.objs && ch.o in Step(s, ch).value.objs
    ensures MemberOk(Step(s, ch).value, ch.o, ch.ok) && (Joining(Step(s, ch).value, ch.o) ==> ch.ok)
  {
    hide Inv, Held, Owned;
    AwaitedIsNoMember(s, ch.o);
    if ch.ok {
      assert Joins(Step(s, ch).value.agents[ch.a], ch.o);
    }
  }

  // What an event that is no agent's action leaves as it is for an object.
  lemma IoFrame(s: State, ch: Choice, o: Ptr)
    requires !ch.Go? && Step(s, ch).Some? && !(ch.Run? && ch.o == o) && !(ch.Accepted? && ch.o == o)
    requires o in s.objs && o in Step(s, ch).value.objs
    ensures var s' := Step(s, ch).value;
      && s'.clients == s.clients
      && (s'.objs[o].dying <==> s.objs[o].dying || (ch.Reap? && ch.o == o))
      && (ch.Reap? ==> ch.a in s'.agents && Leaves(s'.agents[ch.a], ch.o))
      && forall a :: a in s'.agents && a !in s.agents ==> !Joins(s'.agents[a], o)
  {
    hide Inv, Held, Owned, Q.OnSend, Q.OnWrite;
  }

  lemma IoAgents(s: State, ch: Choice)
    requires !ch.Go? && Step(s, ch).Some?
    ensures forall a :: a in s.agents ==> a in Step(s, ch).value.agents && Step(s, ch).value.agents[a] == s.agents[a]
  {
    hide Inv, Held, Owned, Q.OnSend, Q.OnWrite;
  }

  lemma IoElsewhere(s: State, ch: Choice, o: Ptr, accepted: bool)
    requires Inv(s) && !ch.Go? && Step(s, ch).Some? && !(ch.Run? && ch.o == o) && !(ch.Accepted? && ch.o == o)
    requires o in s.objs && o in Step(s, ch).value.objs
    requires MemberOk(s, o, accepted) && (Joining(s, o) ==> accepted)
    ensures MemberOk(Step(s, ch).value, o, accepted) && (Joining(Step(s, ch).value, o) ==> accepted)
  {
    hide Inv, Step, Joins, Leaves;
    var s' := Step(s, ch).value;
    IoFrame(s, ch, o);
    IoAgents(s, ch);
    if Leaving(s, o) {
      var a :| a in s.agents && Leaves(s.agents[a], o);
      assert Leaves(s'.agents[a], o);
    }
    if Joining(s, o) {
      var a :| a in s.agents && Joins(s.agents[a], o);
      assert Joins(s'.agents[a], o);
    }
  }

  lemma MissingIsNoMember(s: State, o: Ptr)
    requires Inv(s) && o !in s.objs
    ensures o !in s.clients
  {
  }

  lemma AwaitedIsNoMember(s: State, o: Ptr)
    requires Inv(s) && o in s.objs && s.objs[o].accepting
    ensures o !in s.clients && !Joining(s, o) && !s.objs[o].dying
  {
    hide Held, LockInv, Unique, AgentOk, Q.Inv;
    assert ObjOk(s.objs[o]);
    NobodyServes(s, o);
  }

  lemma {:induction false} MembersKnown(cs: seq<Choice>, s: State, o: Ptr)
    requires Exec(Init(), cs) == Some(s) && o in s.objs
    ensures MemberOk(s, o, IsAccepted(cs, o)) && (Joining(s, o) ==> IsAccepted(cs, o))
    decreases |cs|
  {
    hide Exec, Step, MemberOk, Joining, Inv;
    if cs == [] {
      NothingYet(s);
    } else {
      var n := |cs| - 1;
      ExecLast(Init(), cs);
      var s0 := Exec(Init(), cs[..n]).value;
      InitInv();
      ExecInv(Init(), cs[..n]);
      StepUuid(s0, cs[n], o);
      if !(cs[n].Run? && cs[n].o == o) {
        MembersKnown(cs[..n], s0, o);
      }
      if cs[n].Go? {
        GoMember(s0, cs[n], o, IsAccepted(cs[..n], o));
      } else {
        IoMember(s0, cs[n], o, IsAccepted(cs[..n], o));
      }
    }
  }

  lemma StepAccepting(s: State, ch: Choice, o: Ptr)
    requires Step(s, ch).Some? && o in Step(s, ch).value.objs
    ensures Step(s, ch).value.objs[o].accepting <==>
      if ch.Run? && ch.o == o then true
      else if ch.Accepted? && ch.o == o then false
      else o in s.objs && s.objs[o].accepting
  {
    hide Held, Owned, Act, Q.OnSend, Q.OnWrite;
    if ch.Go? {
      ActFlags(s, ch.a, ch.pick, ch.child, ch.now, o);
    }
  }

  lemma {:induction false} AwaitedKnown(cs: seq<Choice>, s: State, o: Ptr)
    requires Exec(Init(), cs) == Some(s) && o in s.objs
    ensures s.objs[o].accepting <==> IsAwaited(cs, o)
    decreases |cs|
  {
    hide Exec, Step;
    if cs == [] {
      NothingYet(s);
    } else {
      var n := |cs| - 1;
      ExecLast(Init(), cs);
      var s0 := Exec(Init(), cs[..n]).value;
      StepUuid(s0, cs[n], o);
      StepAccepting(s0, cs[n], o);
      if !(cs[n].Run? && cs[n].o == o) {
        AwaitedKnown(cs[..n], s0, o);
      }
    }
  }

  /**
    Who is served. When all handlers and destructors have finished, exactly the connections that
    were accepted are in the set; exactly those are listened to that were accepted and of which no
    read has failed; and exactly those wait to be accepted that nothing has been heard of.
   */
  lemma WhoIsServed(cs: seq<Choice>, s: State, o: Ptr)
    requires Exec(Init(), cs) == Some(s) && o in s.objs
    requires forall a :: a in s.agents ==> s.agents[a].pc.Done?
    ensures o in s.clients <==> IsAccepted(cs, o)
    ensures s.objs[o].reading <==> IsHeard(cs, o)
    ensures s.objs[o].accepting <==> IsAwaited(cs, o)
  {
    hide Exec, IsAccepted, IsHeard, IsAwaited;
    HeardKnown(cs, s, o);
    MembersKnown(cs, s, o);
    AwaitedKnown(cs, s, o);
  }
}
