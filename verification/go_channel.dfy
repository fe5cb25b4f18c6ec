/**
  The per-client channel of the Go server (wschat-go/main.go): an atomic flag, a
  readers-writer lock and a bounded Go channel, used by any number of concurrent `Send` and
  `Close` calls and drained by one goroutine.

  `Chan` is the object itself and its functions are the atomic actions on it. `State` adds
  the program counter of every call and of the draining goroutine, and one `Step` lets one
  of them perform its next atomic action.
 */
module GoChannel {
  import opened Options
  import opened Sums

  // ---------------------------------------------------------------- the shared object

  // `pending` is set from the moment Lock announces itself until Unlock. It holds back
  // new readers; the announced writer itself waits for `readers` to reach zero.
  datatype Chan<T> = Chan(
    cap: nat, buffer: seq<T>, bufferClosed: bool, closed: bool, readers: nat, pending: bool)

  // What one action on the object does: it goes through, it blocks, or the Go runtime panics.
  datatype Effect<T> = Ran(chan: Chan<T>) | Blocks | Panics

  function NewChan<T>(cap: nat): Chan<T> {
    Chan(cap, [], false, false, 0, false)
  }

  function RLock<T>(c: Chan<T>): Effect<T> {
    if c.pending then Blocks else Ran(c.(readers := c.readers + 1))
  }

  function RUnlock<T>(c: Chan<T>): Effect<T> {
    if c.readers == 0 then Panics else Ran(c.(readers := c.readers - 1))
  }

  function Enqueue<T>(c: Chan<T>, val: T): Effect<T> {
    if c.bufferClosed then Panics
    else if |c.buffer| < c.cap then Ran(c.(buffer := c.buffer + [val]))
    else Blocks
  }

  function AnnounceLock<T>(c: Chan<T>): Effect<T> {
    if c.pending then Blocks else Ran(c.(pending := true))
  }

  function AcquireLock<T>(c: Chan<T>): Effect<T> {
    if c.readers == 0 then Ran(c) else Blocks
  }

  function CloseBuffer<T>(c: Chan<T>): Effect<T> {
    if c.bufferClosed then Panics else Ran(c.(bufferClosed := true))
  }

  // The program counter of one call. `sent` records whether the call enqueued its value,
  // `won` whether its Swap found the flag unset.
  datatype Call<T> =
    | SendStart(val: T)
    | SendLocked(val: T)
    | SendChecked(val: T)
    | SendUnlock(val: T, sent: bool)
    | SendDone(val: T, sent: bool)
    | CloseStart
    | CloseLock
    | ClosePending
    | CloseLocked
    | CloseUnlock
    | CloseDone(won: bool)

  // A call of Send or Close that nobody disturbs: the object after it, and where the call then
  // is, which is its return unless it blocks.
  function SendAlone<T>(c: Chan<T>, val: T): (Chan<T>, Call<T>) {
    if c.pending then (c, SendStart(val))
    else if c.closed then (c, SendDone(val, false))
    else if |c.buffer| < c.cap then (c.(buffer := c.buffer + [val]), SendDone(val, true))
    else (c.(readers := c.readers + 1), SendChecked(val))
  }

  function CloseAlone<T>(c: Chan<T>): (Chan<T>, Call<T>) {
    if c.closed then (c, CloseDone(false))
    else if c.readers == 0 then (c.(closed := true, bufferClosed := true), CloseDone(true))
    else (c.(closed := true, pending := true), ClosePending)
  }

  /** The channel object, with the fields of the source updated in place. */
  class Channel<T> {
    const cap: nat
    var c: seq<T>
    var cClosed: bool
    var closed: bool
    var readers: nat
    var pending: bool

    function View(): Chan<T>
      reads this
    {
      Chan(cap, c, cClosed, closed, readers, pending)
    }

    constructor (cap: nat)
      ensures View() == NewChan(cap)
    {
      this.cap := cap;
      c, cClosed, closed, readers, pending := [], false, false, 0, false;
    }

    method Load() returns (flag: bool)
      ensures flag == View().closed
    {
      flag := closed;
    }

    method Swap() returns (before: bool)
      modifies this`closed
      ensures before == old(closed) && View() == old(View()).(closed := true)
    {
      before := closed;
      closed := true;
    }

    method TryRLock() returns (ok: bool)
      modifies this`readers
      ensures RLock(old(View())) == if ok then Ran(View()) else Blocks
      ensures !ok ==> View() == old(View())
    {
      ok := !pending;
      if ok {
        readers := readers + 1;
      }
    }

    method ReleaseRLock()
      requires readers > 0
      modifies this`readers
      ensures RUnlock(old(View())) == Ran(View())
    {
      readers := readers - 1;
    }

    method TrySend(val: T) returns (ok: bool)
      requires !cClosed
      modifies this`c
      ensures Enqueue(old(View()), val) == if ok then Ran(View()) else Blocks
      ensures !ok ==> View() == old(View())
    {
      ok := |c| < cap;
      if ok {
        c := c + [val];
      }
    }

    method TryReceive() returns (val: Option<T>)
      modifies this`c
      ensures val.None? <==> old(c) == []
      ensures val.Some? ==> old(c) == [val.value] + c
      ensures View() == old(View()).(buffer := c)
    {
      if c == [] {
        val := None;
      } else {
        val := Some(c[0]);
        c := c[1..];
      }
    }

    method TryAnnounce() returns (ok: bool)
      modifies this`pending
      ensures AnnounceLock(old(View())) == if ok then Ran(View()) else Blocks
      ensures !ok ==> View() == old(View())
    {
      ok := !pending;
      pending := true;
    }

    method TryAcquire() returns (ok: bool)
      ensures AcquireLock(View()) == if ok then Ran(View()) else Blocks
    {
      ok := readers == 0;
    }

    method CloseChannel()
      requires !cClosed
      modifies this`cClosed
      ensures CloseBuffer(old(View())) == Ran(View())
    {
      cClosed := true;
    }

    method Unlock()
      modifies this`pending
      ensures View() == old(View()).(pending := false)
    {
      pending := false;
    }

    // Before the flag is set nobody has announced a writer or closed the Go channel.
    predicate Valid()
      reads this
    {
      closed || (!pending && !cClosed)
    }

    method Send(val: T) returns (at: Call<T>)
      requires Valid()
      modifies this`c, this`readers
      ensures Valid() && (View(), at) == SendAlone(old(View()), val)
    {
      var ok := TryRLock();
      if !ok {
        return SendStart(val);
      }
      var flag := Load();
      if !flag {
        ok := TrySend(val);
        if !ok {
          return SendChecked(val);
        }
      }
      ReleaseRLock();
      return SendDone(val, !flag);
    }

    method Close() returns (at: Call<T>)
      requires Valid()
      modifies this`closed, this`pending, this`cClosed
      ensures Valid() && (View(), at) == CloseAlone(old(View()))
    {
      var before := Swap();
      if before {
        return CloseDone(false);
      }
      var ok := TryAnnounce();
      ok := TryAcquire();
      if !ok {
        return ClosePending;
      }
      CloseChannel();
      Unlock();
      return CloseDone(true);
    }
  }

  // ---------------------------------------------------------------- calls in flight

  datatype Writer<T> = Receiving | Writing(msg: T) | Exited

  // `accepted`, `written`, `closer` and `panicked` only record what happened: the enqueued
  // values in order, the values handed to ws.Write in order, the Close call whose Swap found
  // the flag unset, and whether the Go runtime ever panicked.
  datatype State<T> = State(
    chan: Chan<T>, calls: seq<Call<T>>, writer: Writer<T>,
    accepted: seq<T>, written: seq<T>, closer: Option<nat>, panicked: bool)

  datatype Choice<T> = Begin(call: Call<T>) | Advance(t: nat) | Drain

  predicate IsStart<T>(c: Call<T>) {
    c.SendStart? || c.CloseStart?
  }

  predicate IsDone<T>(c: Call<T>) {
    c.SendDone? || c.CloseDone?
  }

  function Init<T>(cap: nat): State<T> {
    State(NewChan(cap), [], Receiving, [], [], None, false)
  }

  function Apply<T>(s: State<T>, t: nat, e: Effect<T>, next: Call<T>): Option<State<T>>
    requires t < |s.calls|
  {
    match e
    case Ran(chan) => Some(s.(chan := chan, calls := s.calls[t := next]))
    case Blocks => None
    case Panics => Some(s.(panicked := true))
  }

  // The next atomic action of call `t`; None when it is blocked or has returned.
  function AdvanceCall<T>(s: State<T>, t: nat): Option<State<T>>
    requires t < |s.calls|
  {
    match s.calls[t]
    case SendStart(v) => Apply(s, t, RLock(s.chan), SendLocked(v))
    case SendLocked(v) =>
      var next := if !s.chan.closed then SendChecked(v) else SendUnlock(v, false);
      Some(s.(calls := s.calls[t := next]))
    case SendChecked(v) =>
      var r := Apply(s, t, Enqueue(s.chan, v), SendUnlock(v, true));
      if Enqueue(s.chan, v).Ran? then Some(r.value.(accepted := s.accepted + [v])) else r
    case SendUnlock(v, sent) => Apply(s, t, RUnlock(s.chan), SendDone(v, sent))
    case CloseStart =>
      if s.chan.closed then Some(s.(calls := s.calls[t := CloseDone(false)]))
      else Some(s.(chan := s.chan.(closed := true), calls := s.calls[t := CloseLock], closer := Some(t)))
    case CloseLock => Apply(s, t, AnnounceLock(s.chan), ClosePending)
    case ClosePending => Apply(s, t, AcquireLock(s.chan), CloseLocked)
    case CloseLocked => Apply(s, t, CloseBuffer(s.chan), CloseUnlock)
    case CloseUnlock => Some(s.(chan := s.chan.(pending := false), calls := s.calls[t := CloseDone(true)]))
    case SendDone(_, _) => None
    case CloseDone(_) => None
  }

  // The next action of the goroutine that ranges over the channel and writes to the socket.
  function AdvanceWriter<T>(s: State<T>): Option<State<T>> {
    match s.writer
    case Receiving =>
      if s.chan.buffer != [] then
        Some(s.(chan := s.chan.(buffer := s.chan.buffer[1..]), writer := Writing(s.chan.buffer[0])))
      else if s.chan.bufferClosed then Some(s.(writer := Exited))
      else None
    case Writing(m) => Some(s.(writer := Receiving, written := s.written + [m]))
    case Exited => None
  }

  function Step<T>(s: State<T>, ch: Choice<T>): Option<State<T>> {
    match ch
    case Begin(call) => if IsStart(call) then Some(s.(calls := s.calls + [call])) else None
    case Advance(t) => if t < |s.calls| then AdvanceCall(s, t) else None
    case Drain => AdvanceWriter(s)
  }

  // The state after a schedule; None when some choice of it was not enabled.
  function Exec<T>(s: State<T>, cs: seq<Choice<T>>): Option<State<T>>
    decreases |cs|
  {
    if cs == [] then Some(s)
    else match Step(s, cs[0])
      case None => None
      case Some(s') => Exec(s', cs[1..])
  }

  function ReaderWeight<T>(c: Call<T>): nat {
    if c.SendLocked? || c.SendChecked? || c.SendUnlock? then 1 else 0
  }

  // The calls that have enqueued the value `v`.
  ghost function SentWeight<T>(v: T): Call<T> -> nat {
    (c: Call<T>) => if (c.SendUnlock? || c.SendDone?) && c.sent && c.val == v then 1 else 0
  }

  // ---------------------------------------------------------------- the invariant

  // The calls whose Swap found the flag unset.
  predicate Won<T>(c: Call<T>) {
    c.CloseLock? || c.ClosePending? || c.CloseLocked? || c.CloseUnlock? || (c.CloseDone? && c.won)
  }

  function Hand<T>(w: Writer<T>): seq<T> {
    if w.Writing? then [w.msg] else []
  }

  ghost predicate LockInv<T>(s: State<T>) {
    && s.chan.readers == Sum(s.calls, ReaderWeight)
    && (forall t :: 0 <= t < |s.calls| ==> (Won(s.calls[t]) <==> s.closer == Some(t)))
    && (s.closer.Some? ==> s.closer.value < |s.calls|)
    && (s.chan.closed <==> s.closer.Some?)
    && (s.closer.None? ==> !s.chan.pending && !s.chan.bufferClosed)
    && (s.closer.Some? ==>
          var c := s.calls[s.closer.value];
          && (s.chan.pending <==> c.ClosePending? || c.CloseLocked? || c.CloseUnlock?)
          && (s.chan.bufferClosed <==> c.CloseUnlock? || c.CloseDone?)
          && (c.CloseLocked? || c.CloseUnlock? ==> s.chan.readers == 0)
          && (c.CloseLocked? || c.CloseUnlock? || c.CloseDone? ==> NoneChecked(s)))
    && !s.panicked
  }

  // No sender is past its flag check and still to enqueue.
  ghost predicate NoneChecked<T>(s: State<T>) {
    forall t :: 0 <= t < |s.calls| ==> !s.calls[t].SendChecked?
  }

  // Every enqueued value is written, in the writer's hand or buffered, in order.
  ghost predicate OrderInv<T>(s: State<T>) {
    && s.accepted == s.written + Hand(s.writer) + s.chan.buffer
    && |s.chan.buffer| <= s.chan.cap
    && (s.writer.Exited? ==> s.chan.bufferClosed && s.chan.buffer == [])
  }

  // A Send only skips the enqueue once the flag is set.
  ghost predicate SkipInv<T>(s: State<T>) {
    forall t :: 0 <= t < |s.calls| ==>
      (s.calls[t].SendUnlock? || s.calls[t].SendDone?) && !s.calls[t].sent ==> s.chan.closed
  }

  ghost predicate Inv<T>(s: State<T>) {
    LockInv(s) && OrderInv(s) && SkipInv(s)
  }

  lemma InitInv<T>(cap: nat)
    ensures Inv(Init<T>(cap))
  {
  }

  lemma ReaderExists<T>(s: State<T>, t: nat)
    requires LockInv(s) && t < |s.calls| && ReaderWeight(s.calls[t]) > 0
    ensures s.chan.readers > 0
  {
    SumUpdate(s.calls, ReaderWeight, t, CloseStart);
  }

  // One step of a Send call.
  lemma LockStepSend<T>(s: State<T>, t: nat)
    requires LockInv(s) && t < |s.calls| && AdvanceCall(s, t).Some?
    requires s.calls[t].SendStart? || s.calls[t].SendLocked? || s.calls[t].SendChecked? || s.calls[t].SendUnlock?
    ensures LockInv(AdvanceCall(s, t).value)
  {
    var s' := AdvanceCall(s, t).value;
    if !s.calls[t].SendStart? {
      ReaderExists(s, t);
    }
    assert s'.calls == s.calls[t := s'.calls[t]];
    SumUpdate(s.calls, ReaderWeight, t, s'.calls[t]);
    assert forall u :: 0 <= u < |s.calls| && u != t ==> s'.calls[u] == s.calls[u];
    assert s.closer != Some(t);
    assert s'.closer == s.closer;
  }

  // One step of a Close call.
  lemma LockStepClose<T>(s: State<T>, t: nat)
    requires LockInv(s) && t < |s.calls| && AdvanceCall(s, t).Some?
    requires !(s.calls[t].SendStart? || s.calls[t].SendLocked? || s.calls[t].SendChecked? || s.calls[t].SendUnlock?)
    ensures LockInv(AdvanceCall(s, t).value)
  {
    var s' := AdvanceCall(s, t).value;
    if s.calls[t].ClosePending? && !NoneChecked(s) {
      var u :| 0 <= u < |s.calls| && s.calls[u].SendChecked?;
      ReaderExists(s, u);
    }
    assert s'.calls == s.calls[t := s'.calls[t]];
    SumUpdate(s.calls, ReaderWeight, t, s'.calls[t]);
    assert forall u :: 0 <= u < |s.calls| && u != t ==> s'.calls[u] == s.calls[u];
  }

  lemma OrderStep<T>(s: State<T>, t: nat)
    requires LockInv(s) && OrderInv(s) && t < |s.calls| && AdvanceCall(s, t).Some?
    ensures OrderInv(AdvanceCall(s, t).value)
  {
    assert s.calls[t].SendChecked? ==> !s.chan.bufferClosed;
  }

  lemma SkipStep<T>(s: State<T>, t: nat)
    requires SkipInv(s) && t < |s.calls| && AdvanceCall(s, t).Some?
    ensures SkipInv(AdvanceCall(s, t).value)
  {
    var s' := AdvanceCall(s, t).value;
    assert s'.calls == s.calls[t := s'.calls[t]];
  }

  lemma AdvanceInv<T>(s: State<T>, t: nat)
    requires Inv(s) && t < |s.calls| && AdvanceCall(s, t).Some?
    ensures Inv(AdvanceCall(s, t).value)
  {
    if s.calls[t].SendStart? || s.calls[t].SendLocked? || s.calls[t].SendChecked? || s.calls[t].SendUnlock? {
      LockStepSend(s, t);
    } else {
      LockStepClose(s, t);
    }
    OrderStep(s, t);
    SkipStep(s, t);
  }

  lemma BeginInv<T>(s: State<T>, call: Call<T>)
    requires Inv(s) && IsStart(call)
    ensures Inv(s.(calls := s.calls + [call]))
  {
    SumAppend(s.calls, ReaderWeight, call);
  }

  lemma DrainInv<T>(s: State<T>)
    requires Inv(s) && AdvanceWriter(s).Some?
    ensures Inv(AdvanceWriter(s).value)
  {
  }

  lemma StepInv<T>(s: State<T>, ch: Choice<T>)
    requires Inv(s) && Step(s, ch).Some?
    ensures Inv(Step(s, ch).value)
  {
    match ch
    case Begin(call) => BeginInv(s, call);
    case Advance(t) => AdvanceInv(s, t);
    case Drain => DrainInv(s);
  }

  lemma {:induction false} ExecInv<T>(s: State<T>, cs: seq<Choice<T>>)
    requires Inv(s) && Exec(s, cs).Some?
    ensures Inv(Exec(s, cs).value)
    decreases |cs|
  {
    if cs != [] {
      StepInv(s, cs[0]);
      ExecInv(Step(s, cs[0]).value, cs[1..]);
    }
  }

  // ---------------------------------------------------------------- conservation

  // Each value was enqueued as often as there are Send calls that say they enqueued it.
  ghost predicate SentInv<T>(s: State<T>, v: T) {
    multiset(s.accepted)[v] == Sum(s.calls, SentWeight(v))
  }

  // What one action of call `t` means for the record of enqueued values.
  lemma AdvanceShape<T>(s: State<T>, t: nat) returns (c: Call<T>)
    requires LockInv(s) && t < |s.calls| && AdvanceCall(s, t).Some?
    ensures AdvanceCall(s, t).value.calls == s.calls[t := c]
    ensures var s' := AdvanceCall(s, t).value;
      if s.calls[t].SendChecked?
      then s'.accepted == s.accepted + [s.calls[t].val] && c == SendUnlock(s.calls[t].val, true)
      else s'.accepted == s.accepted && forall v :: SentWeight(v)(c) == SentWeight(v)(s.calls[t])
  {
    c := AdvanceCall(s, t).value.calls[t];
    if s.calls[t].SendUnlock? {
      ReaderExists(s, t);
    }
  }

  lemma SentAdvance<T>(s: State<T>, t: nat, v: T)
    requires LockInv(s) && SentInv(s, v) && t < |s.calls| && AdvanceCall(s, t).Some?
    ensures SentInv(AdvanceCall(s, t).value, v)
  {
    var c := AdvanceShape(s, t);
    SumUpdate(s.calls, SentWeight(v), t, c);
    if s.calls[t].SendChecked? {
      assert multiset(s.accepted + [s.calls[t].val]) == multiset(s.accepted) + multiset{s.calls[t].val};
    }
  }

  lemma SentStep<T>(s: State<T>, ch: Choice<T>, v: T)
    requires Inv(s) && SentInv(s, v) && Step(s, ch).Some?
    ensures SentInv(Step(s, ch).value, v)
  {
    match ch
    case Begin(call) => SumAppend(s.calls, SentWeight(v), call);
    case Advance(t) => SentAdvance(s, t, v);
    case Drain =>
  }

  lemma {:induction false} ExecSent<T>(s: State<T>, cs: seq<Choice<T>>, v: T)
    requires Inv(s) && SentInv(s, v) && Exec(s, cs).Some?
    ensures SentInv(Exec(s, cs).value, v)
    decreases |cs|
  {
    if cs != [] {
      StepInv(s, cs[0]);
      SentStep(s, cs[0], v);
      ExecSent(Step(s, cs[0]).value, cs[1..], v);
    }
  }

  // The actions a call can still take, weighted so that an enqueue pays for the two actions
  // the writer then needs.
  function Rank<T>(c: Call<T>): nat {
    match c
    case SendStart(_) => 6
    case SendLocked(_) => 5
    case SendChecked(_) => 4
    case SendUnlock(_, _) => 1
    case SendDone(_, _) => 0
    case CloseStart => 5
    case CloseLock => 4
    case ClosePending => 3
    case CloseLocked => 2
    case CloseUnlock => 1
    case CloseDone(_) => 0
  }

  // ---------------------------------------------------------------- a call that nobody disturbs

  lemma {:induction false} ExecSnoc<T>(s: State<T>, cs: seq<Choice<T>>, ch: Choice<T>)
    requires Exec(s, cs).Some?
    ensures Exec(s, cs + [ch]) == Step(Exec(s, cs).value, ch)
    decreases |cs|
  {
    if cs == [] {
      assert [ch][1..] == [];
    } else {
      assert (cs + [ch])[1..] == cs[1..] + [ch];
      ExecSnoc(Step(s, cs[0]).value, cs[1..], ch);
    }
  }

  // The run `cs` from `s` to `s1` goes on with the call `t` as far as it gets.
  lemma RunCall<T>(s: State<T>, cs: seq<Choice<T>>, s1: State<T>, t: nat) returns (cs': seq<Choice<T>>, s': State<T>)
    requires Exec(s, cs) == Some(s1) && Inv(s1) && t < |s1.calls|
    ensures Exec(s, cs') == Some(s') && cs <= cs'
    ensures forall i :: |cs| <= i < |cs'| ==> cs'[i] == Advance(t)
    ensures Inv(s') && |s'.calls| == |s1.calls| && AdvanceCall(s', t).None?
    ensures (s'.chan, s'.calls[t]) == Alone(s1.chan, s1.calls[t])
    decreases Rank(s1.calls[t])
  {
    hide Inv, Exec, AdvanceCall;
    if AdvanceCall(s1, t).None? {
      cs', s' := cs, s1;
      StaysPut(s1, t);
    } else {
      var s2 := AdvanceCall(s1, t).value;
      ExecSnoc(s, cs, Advance(t));
      AdvanceInv(s1, t);
      AloneStep(s1, t);
      cs', s' := RunCall(s, cs + [Advance(t)], s2, t);
    }
  }

  // Where a call gets on its own, from wherever it is.
  function Alone<T>(c: Chan<T>, call: Call<T>): (Chan<T>, Call<T>)
    decreases Rank(call)
  {
    match call
    case SendStart(v) => SendAlone(c, v)
    case SendLocked(v) =>
      if c.closed then (c.(readers := Less(c.readers)), SendDone(v, false)) else Alone(c, SendChecked(v))
    case SendChecked(v) =>
      if |c.buffer| < c.cap then (c.(buffer := c.buffer + [v], readers := Less(c.readers)), SendDone(v, true))
      else (c, call)
    case SendUnlock(v, sent) => (c.(readers := Less(c.readers)), SendDone(v, sent))
    case CloseStart => CloseAlone(c)
    case CloseLock => Alone(c.(pending := true), ClosePending)
    case ClosePending =>
      if c.readers == 0 then (c.(bufferClosed := true, pending := false), CloseDone(true)) else (c, call)
    case CloseLocked => (c.(bufferClosed := true, pending := false), CloseDone(true))
    case CloseUnlock => (c.(pending := false), CloseDone(true))
    case SendDone(_, _) => (c, call)
    case CloseDone(_) => (c, call)
  }

  function Less(n: nat): nat {
    if n == 0 then 0 else n - 1
  }

  lemma StaysPut<T>(s: State<T>, t: nat)
    requires Inv(s) && t < |s.calls| && AdvanceCall(s, t).None?
    ensures Alone(s.chan, s.calls[t]) == (s.chan, s.calls[t])
  {
  }

  lemma AloneStep<T>(s: State<T>, t: nat)
    requires Inv(s) && t < |s.calls| && AdvanceCall(s, t).Some?
    ensures var s' := AdvanceCall(s, t).value;
      && |s'.calls| == |s.calls| && Rank(s'.calls[t]) < Rank(s.calls[t])
      && Alone(s'.chan, s'.calls[t]) == Alone(s.chan, s.calls[t])
  {
    if !s.calls[t].SendStart? && ReaderWeight(s.calls[t]) > 0 {
      ReaderExists(s, t);
    }
  }

  /**
    The composed methods are the runs of the steps: a new Send, or Close, that runs alone from any
    reachable state gets where the method Send, or Close, of the channel object gets, and no
    further.
   */
  lemma MethodsAreRuns<T>(cap: nat, before: seq<Choice<T>>, s: State<T>, call: Call<T>)
      returns (cs: seq<Choice<T>>, s': State<T>)
    requires Exec(Init(cap), before) == Some(s) && IsStart(call)
    ensures Exec(s, cs) == Some(s') && cs != [] && cs[0] == Begin(call)
    ensures forall i :: 1 <= i < |cs| ==> cs[i] == Advance(|s.calls|)
    ensures |s'.calls| == |s.calls| + 1 && AdvanceCall(s', |s.calls|).None?
    ensures (s'.chan, s'.calls[|s.calls|]) ==
      if call.SendStart? then SendAlone(s.chan, call.val) else CloseAlone(s.chan)
  {
    hide Inv, AdvanceCall;
    InitInv<T>(cap);
    ExecInv(Init(cap), before);
    BeginInv(s, call);
    var s1 := s.(calls := s.calls + [call]);
    assert [Begin(call)][1..] == [];
    cs, s' := RunCall(s, [Begin(call)], s1, |s.calls|);
  }

  // ---------------------------------------------------------------- theorems over whole runs

  /**
    Under every interleaving of any number of Send and Close calls the runtime never panics:
    no value is sent on a closed channel, the channel is closed at most once and no read lock
    is released that was not held. Once the channel is closed no sender is past its flag check.
   */
  lemma NeverPanics<T>(cap: nat, cs: seq<Choice<T>>)
    requires Exec(Init(cap), cs).Some?
    ensures !Exec(Init(cap), cs).value.panicked
    ensures Exec(Init(cap), cs).value.chan.bufferClosed ==> NoneChecked(Exec(Init(cap), cs).value)
  {
    ExecInv(Init(cap), cs);
  }

  /**
    The enqueued values are, in order, those handed to ws.Write, the one in the writer's hand
    and those buffered; the buffer stays within its capacity; when the writer has exited every
    enqueued value has been written; and each value was enqueued by as many Send calls as say so.
   */
  lemma Conservation<T>(cap: nat, cs: seq<Choice<T>>, v: T)
    requires Exec(Init(cap), cs).Some?
    ensures var s := Exec(Init(cap), cs).value;
      && s.accepted == s.written + Hand(s.writer) + s.chan.buffer
      && |s.chan.buffer| <= cap
      && (s.writer.Exited? ==> s.written == s.accepted)
      && multiset(s.accepted)[v] == Sum(s.calls, SentWeight(v))
  {
    ExecInv(Init(cap), cs);
    ExecSent(Init(cap), cs, v);
    ExecCap(Init(cap), cs);
  }

  /** A Send that returned although no Close had yet set the flag has enqueued its value. */
  lemma SendBeforeCloseIsAccepted<T>(cap: nat, cs: seq<Choice<T>>, t: nat)
    requires Exec(Init(cap), cs).Some?
    requires t < |Exec(Init(cap), cs).value.calls| && Exec(Init(cap), cs).value.calls[t].SendDone?
    requires !Exec(Init(cap), cs).value.chan.closed
    ensures Exec(Init(cap), cs).value.calls[t].sent
    ensures Exec(Init(cap), cs).value.calls[t].val in Exec(Init(cap), cs).value.accepted
  {
    var s := Exec(Init(cap), cs).value;
    var v := s.calls[t].val;
    ExecInv(Init(cap), cs);
    ExecSent(Init(cap), cs, v);
    SumUpdate(s.calls, SentWeight(v), t, CloseStart);
    assert multiset(s.accepted)[v] > 0;
  }

  // Inside Send with the read lock, and inside Close from the announcement to the unlocking.
  predicate Reads<T>(c: Call<T>) {
    c.SendLocked? || c.SendChecked? || c.SendUnlock?
  }

  predicate Writes<T>(c: Call<T>) {
    c.ClosePending? || c.CloseLocked? || c.CloseUnlock?
  }

  lemma ReadersAre<T>(s: State<T>)
    requires LockInv(s)
    ensures s.chan.readers == 0 <==> forall u :: 0 <= u < |s.calls| ==> !Reads(s.calls[u])
  {
    SumZero(s.calls, ReaderWeight);
  }

  lemma WritersAre<T>(s: State<T>)
    requires LockInv(s)
    ensures s.chan.pending <==> exists u :: 0 <= u < |s.calls| && Writes(s.calls[u])
    ensures s.chan.bufferClosed <==>
              exists u :: 0 <= u < |s.calls| && (s.calls[u].CloseUnlock? || s.calls[u] == CloseDone(true))
  {
    assert forall u :: 0 <= u < |s.calls| && Writes(s.calls[u]) ==> Won(s.calls[u]);
  }

  /**
    Exactly when something waits. A call waits at the lock of Send while a Close is under way, at
    the Go channel while that is full, at the lock of Close while a Send is under way, and nowhere
    else; the goroutine waits while the Go channel is empty and no Close has closed it.
   */
  lemma WaitsIff<T>(cap: nat, cs: seq<Choice<T>>, t: nat)
    requires Exec(Init(cap), cs).Some? && t < |Exec(Init(cap), cs).value.calls|
    ensures var s := Exec(Init(cap), cs).value;
      var c := s.calls[t];
      !IsDone(c) && Step(s, Advance(t)).None? <==>
        || (c.SendStart? && exists u :: 0 <= u < |s.calls| && Writes(s.calls[u]))
        || (c.SendChecked? && |s.chan.buffer| == cap)
        || (c.ClosePending? && exists u :: 0 <= u < |s.calls| && Reads(s.calls[u]))
    ensures var s := Exec(Init(cap), cs).value;
      !s.writer.Exited? && Step(s, Drain).None? <==>
        s.writer.Receiving? && s.chan.buffer == []
        && forall u :: 0 <= u < |s.calls| ==> !s.calls[u].CloseUnlock? && s.calls[u] != CloseDone(true)
  {
    hide Exec, Inv;
    ExecInv(Init(cap), cs);
    ExecCap(Init(cap), cs);
    var s := Exec(Init(cap), cs).value;
    WaitsInState(s, t);
  }

  lemma WaitsInState<T>(s: State<T>, t: nat)
    requires Inv(s) && t < |s.calls|
    ensures var c := s.calls[t];
      !IsDone(c) && Step(s, Advance(t)).None? <==>
        || (c.SendStart? && exists u :: 0 <= u < |s.calls| && Writes(s.calls[u]))
        || (c.SendChecked? && |s.chan.buffer| == s.chan.cap)
        || (c.ClosePending? && exists u :: 0 <= u < |s.calls| && Reads(s.calls[u]))
    ensures !s.writer.Exited? && Step(s, Drain).None? <==>
        s.writer.Receiving? && s.chan.buffer == []
        && forall u :: 0 <= u < |s.calls| ==> !s.calls[u].CloseUnlock? && s.calls[u] != CloseDone(true)
  {
    ReadersAre(s);
    WritersAre(s);
    hide Reads, Writes;
  }

  // ---------------------------------------------------------------- progress

  ghost predicate Enabled<T>(s: State<T>, ch: Choice<T>) {
    !ch.Begin? && Step(s, ch).Some?
  }

  ghost predicate AllDone<T>(s: State<T>) {
    forall t :: 0 <= t < |s.calls| ==> IsDone(s.calls[t])
  }

  // A call that holds the lock in either mode, or that the lock does not hold back, can move
  // unless it is a sender facing a full buffer; then the writer can.
  lemma HolderMoves<T>(s: State<T>, t: nat) returns (ch: Choice<T>)
    requires Inv(s) && s.chan.cap >= 1 && t < |s.calls|
    requires s.calls[t].SendLocked? || s.calls[t].SendChecked? || s.calls[t].SendUnlock?
          || s.calls[t].CloseStart? || s.calls[t].CloseLock? || s.calls[t].CloseLocked? || s.calls[t].CloseUnlock?
    ensures Enabled(s, ch)
  {
    if s.calls[t].SendChecked? && Step(s, Advance(t)).None? {
      ch := Drain;
    } else {
      ch := Advance(t);
    }
  }

  // The announced writer can move, or one of the readers it waits for can.
  lemma PendingMoves<T>(s: State<T>, t: nat) returns (ch: Choice<T>)
    requires Inv(s) && s.chan.cap >= 1 && t < |s.calls| && s.calls[t].ClosePending?
    ensures Enabled(s, ch)
  {
    if s.chan.readers == 0 {
      ch := Advance(t);
    } else {
      var r := SumPositive(s.calls, ReaderWeight);
      ch := HolderMoves(s, r);
    }
  }

  /**
    No reachable state is a deadlock: while some call has not returned, some call or the
    writer has an enabled action.
   */
  lemma Progress<T>(s: State<T>) returns (ch: Choice<T>)
    requires Inv(s) && s.chan.cap >= 1 && !AllDone(s)
    ensures Enabled(s, ch)
  {
    var t :| 0 <= t < |s.calls| && !IsDone(s.calls[t]);
    if s.calls[t].ClosePending? {
      ch := PendingMoves(s, t);
    } else if s.calls[t].SendStart? && s.chan.pending {
      var w := s.closer.value;
      if s.calls[w].ClosePending? {
        ch := PendingMoves(s, w);
      } else {
        ch := HolderMoves(s, w);
      }
    } else if s.calls[t].SendStart? {
      ch := Advance(t);
    } else {
      ch := HolderMoves(s, t);
    }
  }

  function Measure<T>(s: State<T>): nat {
    Sum(s.calls, Rank) + 2 * |s.chan.buffer| + (if s.writer.Writing? then 2 else if s.writer.Receiving? then 1 else 0)
  }

  lemma RankDrops<T>(s: State<T>, t: nat)
    requires LockInv(s) && t < |s.calls| && AdvanceCall(s, t).Some?
    ensures var s' := AdvanceCall(s, t).value;
      && s'.calls == s.calls[t := s'.calls[t]]
      && s'.writer == s.writer
      && Rank(s'.calls[t]) + 2 * |s'.chan.buffer| < Rank(s.calls[t]) + 2 * |s.chan.buffer|
  {
    if s.calls[t].SendUnlock? {
      ReaderExists(s, t);
    }
  }

  lemma AdvanceDrops<T>(s: State<T>, t: nat)
    requires LockInv(s) && t < |s.calls| && AdvanceCall(s, t).Some?
    ensures Measure(AdvanceCall(s, t).value) < Measure(s)
  {
    RankDrops(s, t);
    SumUpdate(s.calls, Rank, t, AdvanceCall(s, t).value.calls[t]);
  }

  /** Every action other than the start of a new call makes the measure smaller. */
  lemma MeasureDrops<T>(s: State<T>, ch: Choice<T>)
    requires Inv(s) && Enabled(s, ch)
    ensures Measure(Step(s, ch).value) < Measure(s)
  {
    if ch.Advance? {
      AdvanceDrops(s, ch.t);
    }
  }

  lemma {:induction false} RunBound<T>(s: State<T>, cs: seq<Choice<T>>)
    requires Inv(s) && Exec(s, cs).Some?
    requires forall i :: 0 <= i < |cs| ==> !cs[i].Begin?
    ensures |cs| + Measure(Exec(s, cs).value) <= Measure(s)
    decreases |cs|
  {
    if cs != [] {
      StepInv(s, cs[0]);
      MeasureDrops(s, cs[0]);
      RunBound(Step(s, cs[0]).value, cs[1..]);
    }
  }

  /**
    Once no new calls start, every schedule is finite, and when nothing is enabled any more
    every call has returned, every enqueued value has been written, and the writer has exited
    if some Close call was made.
   */
  lemma Settles<T>(cap: nat, before: seq<Choice<T>>, after: seq<Choice<T>>)
    requires cap >= 1 && Exec(Init(cap), before).Some?
    requires Exec(Exec(Init(cap), before).value, after).Some?
    requires forall i :: 0 <= i < |after| ==> !after[i].Begin?
    ensures |after| <= Measure(Exec(Init(cap), before).value)
    ensures var s := Exec(Exec(Init(cap), before).value, after).value;
      (forall ch :: !Enabled(s, ch)) ==>
        && AllDone(s)
        && s.written == s.accepted
        && (s.writer.Exited? <==> s.chan.closed)
  {
    hide Inv, Exec, Measure, Enabled, AllDone;
    var s0 := Exec(Init(cap), before).value;
    InitInv<T>(cap);
    ExecInv(Init(cap), before);
    ExecCap(Init(cap), before);
    RunBound(s0, after);
    ExecInv(s0, after);
    ExecCap(s0, after);
    var s := Exec(s0, after).value;
    if forall ch :: !Enabled(s, ch) {
      AtRest(s);
    }
  }

  lemma AtRest<T>(s: State<T>)
    requires Inv(s) && s.chan.cap >= 1 && forall ch :: !Enabled(s, ch)
    ensures AllDone(s) && s.written == s.accepted && (s.writer.Exited? <==> s.chan.closed)
  {
    if !AllDone(s) {
      var ch := Progress(s);
      assert false;
    }
    assert !Enabled(s, Drain);
  }

  lemma {:induction false} ExecCap<T>(s: State<T>, cs: seq<Choice<T>>)
    requires Exec(s, cs).Some?
    ensures Exec(s, cs).value.chan.cap == s.chan.cap
    decreases |cs|
  {
    if cs != [] {
      ExecCap(Step(s, cs[0]).value, cs[1..]);
    }
  }
}
