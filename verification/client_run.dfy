/**
  The goroutines of the load tester (client/main.go): `main`, one worker per connection and, in
  test mode, one receiver per connected worker. They synchronize over two bounded channels, a
  channel that is only closed (the start signal), and one `doneChan` per receiver.
 */
module ClientRun {
  import opened Options
  import opened Sums

  const STARTED_CAP := 5
  const RESULTS_CAP := 100

  // `badAddr` says that no websocket configuration can be made of the address all workers share.
  datatype Config = Config(numConns: nat, sameStart: bool, test: bool, badAddr: bool)

  // Where a worker is. Posting: at `startedChan <- true`; AtStart: at `<-startChan`;
  // Sending: in its send loop; AwaitReceiver: at `<-doneChan`; Recording: writing its send
  // results; Delivering: at `testChan <- tres`.
  datatype Pc =
    | Dialing | Posting(connected: bool) | AtStart | Running | Sending | AwaitReceiver | Recording
    | Delivering | Exited

  datatype Receiver = NotStarted | Receiving | Closed

  // `posted` records whether a token was posted. The rest is the worker's result record: whether it
  // connected, and whether its fields about receiving and about sending have been written.
  datatype Worker = Worker(pc: Pc, receiver: Receiver, posted: bool, connected: bool, gotRecv: bool, gotSend: bool)

  datatype MainPc = Collecting(tokens: nat) | Gathering | Finished

  // `tokens` and `results` are the contents of the channels startedChan and testChan.
  datatype State = State(
    workers: seq<Worker>, main: MainPc, tokens: nat, startClosed: bool,
    results: seq<nat>, received: seq<nat>)

  datatype Outcome = Succeeds | Fails

  datatype Choice = Work(i: nat, outcome: Outcome) | Receive(i: nat) | Main

  function Init(c: Config): State {
    State(seq(c.numConns, _ => Worker(Dialing, NotStarted, false, false, false, false)),
          if c.sameStart then Collecting(0) else Gathering, 0, false, [], [])
  }

  function SetWorker(s: State, i: nat, w: Worker): State
    requires i < |s.workers|
  {
    s.(workers := s.workers[i := w])
  }

  // The deferred end of a worker.
  function Leave(c: Config): Pc {
    if c.test then Delivering else Exited
  }

  // The next action of worker `i`. The outcome matters where it dials, and where it waits for
  // its uuid in test mode.
  function WorkerStep(c: Config, s: State, i: nat, outcome: Outcome): Option<State>
    requires i < |s.workers|
  {
    var w := s.workers[i];
    match w.pc
    case Dialing =>
      // The configuration is made here in test mode, and inside the dial otherwise.
      var connected := outcome.Succeeds? && !c.badAddr;
      var pc := if c.sameStart || (c.badAddr && c.test) then Posting(connected)
                else if connected then Running
                else Leave(c);
      Some(SetWorker(s, i, w.(pc := pc, connected := connected)))
    case Posting(connected) =>
      if s.tokens < STARTED_CAP
      then Some(SetWorker(s, i, w.(pc := if connected
        then AtStart else Leave(c), posted := true)).(tokens := s.tokens + 1))
      else None
    case AtStart => if s.startClosed then Some(SetWorker(s, i, w.(pc := Running))) else None
    case Running =>
      if !c.test then Some(SetWorker(s, i, w.(pc := Exited)))
      else if outcome.Succeeds? then Some(SetWorker(s, i, w.(pc := Sending, receiver := Receiving)))
      else Some(SetWorker(s, i, w.(pc := Delivering)))
    case Sending => Some(SetWorker(s, i, w.(pc := AwaitReceiver)))
    case AwaitReceiver => if w.receiver.Closed? then Some(SetWorker(s, i, w.(pc := Recording))) else None
    case Recording => Some(SetWorker(s, i, w.(pc := Delivering, gotSend := true)))
    case Delivering =>
      if |s.results| < RESULTS_CAP
      then Some(SetWorker(s, i, w.(pc := Exited)).(results := s.results + [i]))
      else None
    case Exited => None
  }

  function ReceiverStep(s: State, i: nat): Option<State>
    requires i < |s.workers|
  {
    if s.workers[i].receiver.Receiving?
    then Some(SetWorker(s, i, s.workers[i].(receiver := Closed, gotRecv := true)))
    else None
  }

  function MainStep(c: Config, s: State): Option<State> {
    match s.main
    case Collecting(k) =>
      if k == c.numConns then Some(s.(main := Gathering, startClosed := true))
      else if s.tokens > 0 then Some(s.(main := Collecting(k + 1), tokens := s.tokens - 1))
      else None
    case Gathering =>
      if c.test then
        if |s.received| == c.numConns then Some(s.(main := Finished))
        else if s.results != [] then Some(s.(results := s.results[1..], received := s.received + [s.results[0]]))
        else None
      else if forall i :: 0 <= i < |s.workers| ==> s.workers[i].pc.Exited? then Some(s.(main := Finished))
      else None
    case Finished => None
  }

  function Step(c: Config, s: State, ch: Choice): Option<State> {
    match ch
    case Work(i, outcome) => if i < |s.workers| then WorkerStep(c, s, i, outcome) else None
    case Receive(i) => if i < |s.workers| then ReceiverStep(s, i) else None
    case Main => MainStep(c, s)
  }

  function Exec(c: Config, s: State, cs: seq<Choice>): Option<State>
    decreases |cs|
  {
    if cs == [] then Some(s)
    else match Step(c, s, cs[0])
      case None => None
      case Some(s') => Exec(c, s', cs[1..])
  }

  // ---------------------------------------------------------------- the invariant

  function PostedWeight(w: Worker): nat { if w.posted then 1 else 0 }

  function ExitedWeight(w: Worker): nat { if w.pc.Exited? then 1 else 0 }

  // Tokens taken out of startedChan by main.
  function Taken(c: Config, s: State): nat {
    match s.main
    case Collecting(k) => k
    case _ => if c.sameStart then c.numConns else 0
  }

  // Whether every worker posts a token.
  predicate Posts(c: Config) {
    c.sameStart || (c.badAddr && c.test)
  }

  predicate WorkerOk(c: Config, s: State, w: Worker) {
    && (w.pc.Dialing? ==> !w.posted)
    && (w.pc.Posting? ==> !w.posted && Posts(c) && (c.badAddr ==> !w.pc.connected))
    && (w.pc.AtStart? ==> w.posted && c.sameStart && !c.badAddr)
    && (w.pc.Running? || w.pc.Sending? || w.pc.AwaitReceiver? || w.pc.Recording? ==>
          !c.badAddr && (c.sameStart ==> s.startClosed) && w.posted == c.sameStart)
    && (w.pc.Delivering? || w.pc.Exited? ==> w.posted == Posts(c))
    && (w.receiver.Receiving? ==> w.pc.Sending? || w.pc.AwaitReceiver?)
    && (w.pc.Sending? || w.pc.AwaitReceiver? ==> !w.receiver.NotStarted?)
    && (w.pc.Sending? || w.pc.AwaitReceiver? || w.pc.Recording? || w.pc.Delivering? ==> c.test)
  }

  // The number of times worker `i`'s result is in testChan or with main.
  ghost function Delivered(s: State, i: nat): nat {
    multiset(s.results)[i] + multiset(s.received)[i]
  }

  ghost predicate Inv(c: Config, s: State) {
    && |s.workers| == c.numConns
    && (forall i :: 0 <= i < |s.workers| ==> WorkerOk(c, s, s.workers[i]))
    && (s.main.Collecting? ==> c.sameStart && s.main.tokens <= c.numConns)
    && (s.startClosed <==> c.sameStart && !s.main.Collecting?)
    && Sum(s.workers, PostedWeight) == s.tokens + Taken(c, s)
    && s.tokens <= STARTED_CAP && |s.results| <= RESULTS_CAP
    && (s.main.Finished? ==>
          if c.test then |s.received| == c.numConns
          else forall i :: 0 <= i < |s.workers| ==> s.workers[i].pc.Exited?)
    && (c.test ==> Sum(s.workers, ExitedWeight) == |s.results| + |s.received|)
  }

  // Each worker's result is delivered once it has exited, and only once.
  ghost predicate DeliveryInv(c: Config, s: State) {
    && (forall i :: 0 <= i < |s.workers| ==> Delivered(s, i) == if c.test && s.workers[i].pc.Exited? then 1 else 0)
    && (forall i :: i in s.results || i in s.received ==> i < |s.workers|)
  }

  lemma InitInv(c: Config)
    ensures Inv(c, Init(c)) && DeliveryInv(c, Init(c))
  {
    SumZero(Init(c).workers, PostedWeight);
    SumZero(Init(c).workers, ExitedWeight);
  }

  // What a worker's action means for the tokens and for the results.
  lemma WorkerShape(c: Config, s: State, i: nat, outcome: Outcome) returns (w: Worker)
    requires i < |s.workers| && WorkerOk(c, s, s.workers[i]) && WorkerStep(c, s, i, outcome).Some?
    ensures var s' := WorkerStep(c, s, i, outcome).value;
      && s'.workers == s.workers[i := w] && WorkerOk(c, s, w)
      && s' == s.(workers := s'.workers, tokens := s'.tokens, results := s'.results)
      && s'.tokens - s.tokens == PostedWeight(w) - PostedWeight(s.workers[i])
        && (s'.tokens == s.tokens || s'.tokens <= STARTED_CAP)
      && (if s'.results == s.results then c.test ==> w.pc.Exited? == s.workers[i].pc.Exited?
          else s'.results == s.results + [i] && |s'.results| <= RESULTS_CAP
               && c.test && w.pc.Exited? && !s.workers[i].pc.Exited?)
  {
    w := WorkerStep(c, s, i, outcome).value.workers[i];
  }

  lemma WorkerInv(c: Config, s: State, i: nat, outcome: Outcome)
    requires Inv(c, s) && i < |s.workers| && WorkerStep(c, s, i, outcome).Some?
    ensures Inv(c, WorkerStep(c, s, i, outcome).value)
  {
    hide WorkerStep;
    var s' := WorkerStep(c, s, i, outcome).value;
    var w := WorkerShape(c, s, i, outcome);
    SumUpdate(s.workers, PostedWeight, i, w);
    SumUpdate(s.workers, ExitedWeight, i, w);
    if s.main.Finished? && !c.test {
      assert s.workers[i].pc.Exited?;
      ExitedIsStuck(c, s, i, outcome);
    }
    assert forall j :: 0 <= j < |s.workers| && j != i ==> s'.workers[j] == s.workers[j];
  }

  lemma ExitedIsStuck(c: Config, s: State, i: nat, outcome: Outcome)
    requires i < |s.workers| && s.workers[i].pc.Exited?
    ensures WorkerStep(c, s, i, outcome).None?
  {
  }

  lemma ReceiverInv(c: Config, s: State, i: nat)
    requires Inv(c, s) && i < |s.workers| && ReceiverStep(s, i).Some?
    ensures Inv(c, ReceiverStep(s, i).value)
  {
    var s' := ReceiverStep(s, i).value;
    assert WorkerOk(c, s, s.workers[i]);
    SumUpdate(s.workers, PostedWeight, i, s'.workers[i]);
    SumUpdate(s.workers, ExitedWeight, i, s'.workers[i]);
    assert forall j :: 0 <= j < |s.workers| && j != i ==> s'.workers[j] == s.workers[j];
  }

  lemma StepInv(c: Config, s: State, ch: Choice)
    requires Inv(c, s) && Step(c, s, ch).Some?
    ensures Inv(c, Step(c, s, ch).value)
  {
    match ch
    case Work(i, outcome) => WorkerInv(c, s, i, outcome);
    case Receive(i) => ReceiverInv(c, s, i);
    case Main =>
  }

  lemma DeliveryStep(c: Config, s: State, ch: Choice)
    requires Inv(c, s) && DeliveryInv(c, s) && Step(c, s, ch).Some?
    ensures DeliveryInv(c, Step(c, s, ch).value)
  {
    hide WorkerStep, ReceiverStep, MainStep, Inv, DeliveryInv;
    match ch
    case Work(i, outcome) => DeliveryWork(c, s, i, outcome);
    case Receive(i) => DeliveryReceive(c, s, i);
    case Main => DeliveryMain(c, s);
  }

  lemma DeliveryReceive(c: Config, s: State, i: nat)
    requires DeliveryInv(c, s) && i < |s.workers| && ReceiverStep(s, i).Some?
    ensures DeliveryInv(c, ReceiverStep(s, i).value)
  {
    var s' := ReceiverStep(s, i).value;
    assert forall j :: 0 <= j < |s.workers| ==>
      s'.workers[j].pc == s.workers[j].pc && Delivered(s', j) == Delivered(s, j);
  }

  lemma DeliveryMain(c: Config, s: State)
    requires DeliveryInv(c, s) && MainStep(c, s).Some?
    ensures DeliveryInv(c, MainStep(c, s).value)
  {
    var s' := MainStep(c, s).value;
    if s'.received != s.received {
      TakeResult(s);
    }
    assert forall i :: 0 <= i < |s.workers| ==> Delivered(s', i) == Delivered(s, i);
  }

  // Main takes the first result out of testChan.
  lemma TakeResult(s: State)
    requires s.results != []
    ensures var s' := s.(results := s.results[1..], received := s.received + [s.results[0]]);
      && (forall i :: Delivered(s', i) == Delivered(s, i))
      && (forall i :: i in s'.results || i in s'.received ==> i in s.results || i in s.received)
  {
    assert s.results == [s.results[0]] + s.results[1..];
  }

  lemma DeliveryWork(c: Config, s: State, i: nat, outcome: Outcome)
    requires Inv(c, s) && DeliveryInv(c, s) && i < |s.workers| && WorkerStep(c, s, i, outcome).Some?
    ensures DeliveryInv(c, WorkerStep(c, s, i, outcome).value)
  {
    hide WorkerStep;
    var w := WorkerShape(c, s, i, outcome);
    var s' := WorkerStep(c, s, i, outcome).value;
    hide WorkerOk;
    forall j | 0 <= j < |s.workers|
      ensures Delivered(s', j) == if c.test && s'.workers[j].pc.Exited? then 1 else 0
    {
      assert Delivered(s, j) == if c.test && s.workers[j].pc.Exited? then 1 else 0;
    }
  }

  lemma {:induction false} ExecInv(c: Config, s: State, cs: seq<Choice>)
    requires Inv(c, s) && DeliveryInv(c, s) && Exec(c, s, cs).Some?
    ensures Inv(c, Exec(c, s, cs).value) && DeliveryInv(c, Exec(c, s, cs).value)
    decreases |cs|
  {
    if cs != [] {
      StepInv(c, s, cs[0]);
      DeliveryStep(c, s, cs[0]);
      ExecInv(c, Step(c, s, cs[0]).value, cs[1..]);
    }
  }

  // ---------------------------------------------------------------- safety over whole runs

  /**
    The start barrier. With sameStart the start signal is only given once every worker has
    finished its dial and posted its token, and no worker runs before the signal; on every path
    the tokens posted are those buffered plus those main has taken.
   */
  lemma StartBarrier(c: Config, cs: seq<Choice>, s: State)
    requires Exec(c, Init(c), cs) == Some(s) && c.sameStart
    ensures s.startClosed ==> forall j :: 0 <= j < |s.workers| ==>
      s.workers[j].posted && !s.workers[j].pc.Dialing? && !s.workers[j].pc.Posting?
    ensures forall i :: 0 <= i < |s.workers| ==> var pc := s.workers[i].pc;
      pc.Running? || pc.Sending? || pc.AwaitReceiver? || pc.Recording? ==> s.startClosed
    ensures Sum(s.workers, PostedWeight) == s.tokens + Taken(c, s) && s.tokens <= 5
  {
    InitInv(c);
    ExecInv(c, Init(c), cs);
    SumOnes(s.workers, PostedWeight);
    assert forall j :: 0 <= j < |s.workers| ==> WorkerOk(c, s, s.workers[j]);
    if s.startClosed {
      assert Sum(s.workers, PostedWeight) == |s.workers|;
      assert forall j :: 0 <= j < |s.workers| ==> PostedWeight(s.workers[j]) == 1;
    }
  }

  // The goroutines that may touch the result record of connection `i`.
  predicate WorkerAccess(w: Worker) {
    !w.pc.Sending? && !w.pc.AwaitReceiver? && !w.pc.Exited?
  }

  predicate ReceiverAccess(w: Worker) {
    w.receiver.Receiving?
  }

  ghost predicate MainAccess(s: State, i: nat) {
    i in s.received
  }

  /** In every state at most one goroutine may touch a result record, and none in a channel. */
  lemma HandOff(c: Config, cs: seq<Choice>, s: State, i: nat)
    requires Exec(c, Init(c), cs) == Some(s) && c.test && i < |s.workers|
    ensures !(WorkerAccess(s.workers[i]) && ReceiverAccess(s.workers[i]))
    ensures !(WorkerAccess(s.workers[i]) && MainAccess(s, i))
    ensures !(ReceiverAccess(s.workers[i]) && MainAccess(s, i))
    ensures i in s.results ==> !WorkerAccess(s.workers[i]) && !ReceiverAccess(s.workers[i]) && !MainAccess(s, i)
  {
    InitInv(c);
    ExecInv(c, Init(c), cs);
    assert WorkerOk(c, s, s.workers[i]);
    assert Delivered(s, i) == if s.workers[i].pc.Exited? then 1 else 0;
  }

  /** When main has its results, it has exactly one of each worker and every worker is done. */
  lemma OneResultEach(c: Config, cs: seq<Choice>, s: State)
    requires Exec(c, Init(c), cs) == Some(s) && c.test && s.main.Finished?
    ensures |s.received| == c.numConns
    ensures forall i :: 0 <= i < c.numConns ==> multiset(s.received)[i] == 1
    ensures AllExited(s) && s.results == []
  {
    InitInv(c);
    ExecInv(c, Init(c), cs);
    FinishedExited(c, s);
    forall i | 0 <= i < c.numConns
      ensures multiset(s.received)[i] == 1
    {
      assert Delivered(s, i) == 1;
    }
  }

  ghost predicate AllExited(s: State) {
    forall i :: 0 <= i < |s.workers| ==> s.workers[i].pc.Exited?
  }

  lemma FinishedExited(c: Config, s: State)
    requires Inv(c, s) && s.main.Finished?
    ensures AllExited(s) && (c.test ==> s.results == [])
  {
    SumOnes(s.workers, ExitedWeight);
    assert c.test ==> forall i :: 0 <= i < |s.workers| ==> ExitedWeight(s.workers[i]) == 1;
  }

  /**
    Exactly when a goroutine waits: a worker for room among five tokens, for the start signal, which
    main gives once it has collected all the tokens, for its receiver, or for room among a hundred
    results; main for a token, a result, or the end of a worker.
   */
  lemma WaitsIff(c: Config, cs: seq<Choice>, s: State, i: nat, outcome: Outcome)
    requires Exec(c, Init(c), cs) == Some(s) && i < |s.workers|
    ensures var w := s.workers[i];
      !w.pc.Exited? && Step(c, s, Work(i, outcome)).None? <==>
        || (w.pc.Posting? && s.tokens == 5)
        || (w.pc.AtStart? && s.main.Collecting?)
        || (w.pc.AwaitReceiver? && w.receiver.Receiving?)
        || (w.pc.Delivering? && |s.results| == 100)
    ensures !s.main.Finished? && Step(c, s, Main).None? <==>
        || (s.main.Collecting? && s.main.tokens < c.numConns && s.tokens == 0)
        || (s.main.Gathering? && c.test && |s.received| != c.numConns && s.results == [])
        || (s.main.Gathering? && !c.test && exists j :: 0 <= j < |s.workers| && !s.workers[j].pc.Exited?)
  {
    InitInv(c);
    ExecInv(c, Init(c), cs);
    assert WorkerOk(c, s, s.workers[i]);
  }

  // ---------------------------------------------------------------- progress

  ghost predicate Enabled(c: Config, s: State, ch: Choice) {
    Step(c, s, ch).Some?
  }

  // Whether the tokens that nobody collects fit into startedChan.
  predicate TokensFit(c: Config) {
    c.sameStart || !c.test || !c.badAddr || c.numConns <= STARTED_CAP
  }

  // While main collects tokens, it can take one or somebody can still post one.
  lemma CollectingMoves(c: Config, s: State) returns (ch: Choice)
    requires Inv(c, s) && s.main.Collecting?
    ensures Enabled(c, s, ch)
  {
    if s.main.tokens == c.numConns || s.tokens > 0 {
      ch := Main;
    } else {
      SumOnes(s.workers, PostedWeight);
      var i :| 0 <= i < |s.workers| && PostedWeight(s.workers[i]) != 1;
      assert WorkerOk(c, s, s.workers[i]);
      ch := Work(i, Succeeds);
    }
  }

  // A worker that wants to post a token can, or main can take one.
  lemma PostingMoves(c: Config, s: State, i: nat) returns (ch: Choice)
    requires Inv(c, s) && TokensFit(c) && i < |s.workers| && s.workers[i].pc.Posting?
    ensures Enabled(c, s, ch)
  {
    assert WorkerOk(c, s, s.workers[i]);
    if s.main.Collecting? {
      ch := CollectingMoves(c, s);
    } else {
      ch := Work(i, Succeeds);
      SumOnes(s.workers, PostedWeight);
    }
  }

  // Main can move once every worker has exited.
  lemma MainMoves(c: Config, s: State) returns (ch: Choice)
    requires Inv(c, s) && AllExited(s) && !s.main.Finished?
    ensures Enabled(c, s, ch)
  {
    if s.main.Collecting? {
      ch := CollectingMoves(c, s);
    } else {
      ch := Main;
      SumOnes(s.workers, ExitedWeight);
    }
  }

  /**
    No deadlock as long as the uncollected tokens fit: until main has finished some goroutine
    can move, although startedChan holds only five tokens and testChan a hundred results.
   */
  lemma Progress(c: Config, s: State) returns (ch: Choice)
    requires Inv(c, s) && TokensFit(c) && !s.main.Finished?
    ensures Enabled(c, s, ch)
  {
    if AllExited(s) {
      ch := MainMoves(c, s);
    } else {
      var i: nat :| i < |s.workers| && !s.workers[i].pc.Exited?;
      assert WorkerOk(c, s, s.workers[i]);
      match s.workers[i].pc {
        case Posting(_) => ch := PostingMoves(c, s, i);
        case AtStart =>
          if s.startClosed {
            ch := Work(i, Succeeds);
          } else {
            ch := CollectingMoves(c, s);
          }
        case AwaitReceiver => ch := if s.workers[i].receiver.Closed? then Work(i, Succeeds) else Receive(i);
        case Delivering =>
          if |s.results| < RESULTS_CAP {
            ch := Work(i, Succeeds);
          } else if s.main.Collecting? {
            ch := CollectingMoves(c, s);
          } else {
            ch := Main;
          }
        case _ => ch := Work(i, Succeeds);
      }
    }
  }

  function WorkerRank(w: Worker): nat {
    (if w.receiver.Receiving? then 1 else 0) +
    match w.pc
    case Dialing => 11
    case Posting(_) => 10
    case AtStart => 8
    case Running => 7
    case Sending => 5
    case AwaitReceiver => 4
    case Recording => 3
    case Delivering => 2
    case Exited => 0
  }

  function Measure(s: State): nat {
    Sum(s.workers, WorkerRank) + s.tokens + |s.results| +
    (if s.main.Collecting? then 2 else if s.main.Gathering? then 1 else 0)
  }

  lemma RankDrops(c: Config, s: State, i: nat, outcome: Outcome)
    requires i < |s.workers| && WorkerOk(c, s, s.workers[i]) && WorkerStep(c, s, i, outcome).Some?
    ensures var s' := WorkerStep(c, s, i, outcome).value;
      && s'.workers == s.workers[i := s'.workers[i]] && s'.main == s.main
      && WorkerRank(s'.workers[i]) + s'.tokens + |s'.results| < WorkerRank(s.workers[i]) + s.tokens + |s.results|
  {
  }

  lemma MeasureDrops(c: Config, s: State, ch: Choice)
    requires Inv(c, s) && Enabled(c, s, ch)
    ensures Measure(Step(c, s, ch).value) < Measure(s)
  {
    hide WorkerStep, WorkerOk, WorkerRank;
    var s' := Step(c, s, ch).value;
    match ch
    case Work(i, outcome) =>
      RankDrops(c, s, i, outcome);
      SumUpdate(s.workers, WorkerRank, i, s'.workers[i]);
    case Receive(i) =>
      SumUpdate(s.workers, WorkerRank, i, s'.workers[i]);
      ReceiverRank(s.workers[i]);
    case Main =>
  }

  lemma ReceiverRank(w: Worker)
    requires w.receiver.Receiving?
    ensures WorkerRank(w.(receiver := Closed, gotRecv := true)) < WorkerRank(w)
  {
  }

  /** Every run is finite. */
  lemma {:induction false} RunBound(c: Config, s: State, cs: seq<Choice>)
    requires Inv(c, s) && Exec(c, s, cs).Some?
    ensures |cs| + Measure(Exec(c, s, cs).value) <= Measure(s)
    decreases |cs|
  {
    if cs != [] {
      StepInv(c, s, cs[0]);
      MeasureDrops(c, s, cs[0]);
      RunBound(c, Step(c, s, cs[0]).value, cs[1..]);
    }
  }

  // No goroutine can move.
  ghost predicate AtRest(c: Config, s: State) {
    forall ch :: !Enabled(c, s, ch)
  }

  /**
    Exactly when the load tester completes. A run that can go no further has finished if and
    only if the workers start together, or are not tested, or their address is good, or they are
    at most five: otherwise nobody collects the tokens, and the sixth worker blocks for ever.
   */
  lemma CompletesIff(c: Config, cs: seq<Choice>, s: State)
    requires Exec(c, Init(c), cs) == Some(s) && AtRest(c, s)
    ensures s.main.Finished? <==> c.sameStart || !c.test || !c.badAddr || c.numConns <= 5
  {
    InitInv(c);
    ExecInv(c, Init(c), cs);
    if TokensFit(c) && !s.main.Finished? {
      var ch := Progress(c, s);
      assert false;
    }
    if s.main.Finished? && !c.sameStart && c.test && c.badAddr {
      FinishedExited(c, s);
      forall i | 0 <= i < |s.workers|
        ensures PostedWeight(s.workers[i]) == 1
      {
        assert WorkerOk(c, s, s.workers[i]);
      }
      SumOnes(s.workers, PostedWeight);
    }
  }

  // Every state can be run on until nothing can move.
  lemma {:induction false} RunOn(c: Config, s: State) returns (cs: seq<Choice>, s': State)
    requires Inv(c, s)
    ensures Exec(c, s, cs) == Some(s') && AtRest(c, s')
    decreases Measure(s)
  {
    if AtRest(c, s) {
      cs, s' := [], s;
    } else {
      hide Inv, Step, Measure;
      var ch :| Enabled(c, s, ch);
      StepInv(c, s, ch);
      MeasureDrops(c, s, ch);
      var rest;
      rest, s' := RunOn(c, Step(c, s, ch).value);
      cs := [ch] + rest;
      assert cs[1..] == rest;
    }
  }

  /**
    With a bad address, tested without sameStart, six or more workers come to a state in which every
    goroutine is blocked and main has not finished.
   */
  lemma NeverCompletes(c: Config) returns (cs: seq<Choice>, s: State)
    requires !c.sameStart && c.test && c.badAddr && c.numConns > 5
    ensures Exec(c, Init(c), cs) == Some(s) && AtRest(c, s) && !s.main.Finished?
  {
    InitInv(c);
    cs, s := RunOn(c, Init(c));
    CompletesIff(c, cs, s);
  }

  // ---------------------------------------------------------------- what a result says

  // How the actions of worker `i` that can fail or succeed went, in order.
  function Outcomes(cs: seq<Choice>, i: nat): seq<Outcome> {
    if cs == [] then []
    else
      var ch := cs[|cs| - 1];
      Outcomes(cs[..|cs| - 1], i) + (if ch.Work? && ch.i == i then [ch.outcome] else [])
  }

  // The first is the dial; the uuid is awaited right after it, or after the token and the start.
  predicate Dialed(c: Config, os: seq<Outcome>) {
    os != [] && os[0].Succeeds? && !c.badAddr
  }

  predicate GotUuid(c: Config, os: seq<Outcome>) {
    var k := if c.sameStart then 3 else 1;
    Dialed(c, os) && |os| > k && os[k].Succeeds?
  }

  // How far a worker has come, and what is in its record then.
  predicate Track(c: Config, w: Worker, os: seq<Outcome>) {
    && w.connected == Dialed(c, os)
    && (!w.pc.Delivering? && !w.pc.Exited? ==> !w.gotSend)
    && match w.pc
       case Dialing => os == [] && !w.gotRecv && w.receiver.NotStarted?
       case Posting(k) => |os| == 1 && k == w.connected && !w.gotRecv && w.receiver.NotStarted?
       case AtStart => |os| == 2 && w.connected && c.sameStart && !w.gotRecv && w.receiver.NotStarted?
       case Running =>
         |os| == (if c.sameStart then 3 else 1) && w.connected && !w.gotRecv && w.receiver.NotStarted?
       case Sending => GotUuid(c, os) && (w.gotRecv <==> w.receiver.Closed?)
       case AwaitReceiver => GotUuid(c, os) && (w.gotRecv <==> w.receiver.Closed?)
       case Recording => GotUuid(c, os) && w.gotRecv && w.receiver.Closed?
       case _ =>
         && os != [] && !w.receiver.Receiving? && (w.connected ==> |os| > if c.sameStart then 3 else 1)
         && (c.test ==> w.gotRecv == GotUuid(c, os) && w.gotSend == GotUuid(c, os))
  }

  lemma TrackWork(c: Config, s: State, i: nat, outcome: Outcome, os: seq<Outcome>)
    requires i < |s.workers| && WorkerOk(c, s, s.workers[i]) && Track(c, s.workers[i], os)
    requires WorkerStep(c, s, i, outcome).Some?
    ensures Track(c, WorkerStep(c, s, i, outcome).value.workers[i], os + [outcome])
  {
  }

  lemma TrackReceive(c: Config, s: State, i: nat, os: seq<Outcome>)
    requires i < |s.workers| && WorkerOk(c, s, s.workers[i]) && Track(c, s.workers[i], os)
    requires ReceiverStep(s, i).Some?
    ensures Track(c, ReceiverStep(s, i).value.workers[i], os)
  {
  }

  lemma OthersStay(c: Config, s: State, ch: Choice, i: nat)
    requires Step(c, s, ch).Some? && i < |s.workers| && !((ch.Work? || ch.Receive?) && ch.i == i)
    ensures i < |Step(c, s, ch).value.workers| && Step(c, s, ch).value.workers[i] == s.workers[i]
  {
  }

  lemma {:induction false} ExecLast(c: Config, s: State, cs: seq<Choice>)
    requires cs != [] && Exec(c, s, cs).Some?
    ensures Exec(c, s, cs[..|cs| - 1]).Some?
    ensures Step(c, Exec(c, s, cs[..|cs| - 1]).value, cs[|cs| - 1]) == Exec(c, s, cs)
    decreases |cs|
  {
    hide Step;
    if |cs| > 1 {
      assert cs[1..][..|cs| - 2] == cs[..|cs| - 1][1..];
      ExecLast(c, Step(c, s, cs[0]).value, cs[1..]);
    }
  }

  lemma {:induction false} Tracked(c: Config, cs: seq<Choice>, s: State, i: nat)
    requires Exec(c, Init(c), cs) == Some(s) && i < c.numConns
    ensures i < |s.workers| && Track(c, s.workers[i], Outcomes(cs, i))
    decreases |cs|
  {
    hide Exec, Step, Track, Inv, DeliveryInv;
    if cs == [] {
      NotStartedYet(c, s, i);
    } else {
      var n := |cs| - 1;
      ExecLast(c, Init(c), cs);
      var s0 := Exec(c, Init(c), cs[..n]).value;
      InitInv(c);
      ExecInv(c, Init(c), cs[..n]);
      Tracked(c, cs[..n], s0, i);
      TrackStep(c, s0, cs[n], i, Outcomes(cs[..n], i));
    }
  }

  lemma NotStartedYet(c: Config, s: State, i: nat)
    requires Exec(c, Init(c), []) == Some(s) && i < c.numConns
    ensures i < |s.workers| && Track(c, s.workers[i], [])
  {
  }

  lemma TrackStep(c: Config, s: State, ch: Choice, i: nat, os: seq<Outcome>)
    requires Inv(c, s) && Step(c, s, ch).Some? && i < |s.workers| && Track(c, s.workers[i], os)
    ensures var s' := Step(c, s, ch).value;
      i < |s'.workers| && Track(c, s'.workers[i], os + (if ch.Work? && ch.i == i then [ch.outcome] else []))
  {
    hide Track, WorkerStep, WorkerOk;
    assert WorkerOk(c, s, s.workers[i]);
    assert os + [] == os;
    if ch.Work? && ch.i == i {
      TrackWork(c, s, i, ch.outcome, os);
      var w := WorkerShape(c, s, i, ch.outcome);
    } else if ch.Receive? && ch.i == i {
      TrackReceive(c, s, i, os);
    } else {
      OthersStay(c, s, ch, i);
    }
  }

  /**
    What main finds in a result. Every result it has received says connected exactly when that
    worker's dial succeeded, and has both its receiver's and its sender's fields exactly when the
    worker then got its uuid: nothing is delivered half written.
   */
  lemma ResultsAreComplete(c: Config, cs: seq<Choice>, s: State, i: nat)
    requires Exec(c, Init(c), cs) == Some(s) && c.test && i in s.received
    ensures i < |s.workers|
    ensures s.workers[i].connected <==> Dialed(c, Outcomes(cs, i))
    ensures s.workers[i].gotRecv <==> GotUuid(c, Outcomes(cs, i))
    ensures s.workers[i].gotSend <==> GotUuid(c, Outcomes(cs, i))
  {
    hide Exec, Dialed, GotUuid, Inv;
    InitInv(c);
    ExecInv(c, Init(c), cs);
    SizeOf(c, s);
    Tracked(c, cs, s, i);
    assert Delivered(s, i) >= 1;
  }

  lemma SizeOf(c: Config, s: State)
    requires Inv(c, s)
    ensures |s.workers| == c.numConns
  {
  }
}
