/**
  The aggregation of the load tester's results (client/main.go, runTest). The loop over the
  received results is compared with a definition of each number over all results.
 */
module ClientReport {
  import opened Options

  // Durations are in nanoseconds. The errors are abstract; None is the nil error.
  datatype Result<E> = Result(
    connected: bool, connectDur: int, sendDur: int, recvDur: int,
    msgsSent: nat, msgsRecvd: nat,
    connectErr: Option<E>, sendErr: Option<E>, recvErr: Option<E>, stopRecvReason: Option<E>, serverErr: string)

  const HOUR := 3_600_000_000_000

  function Seconds(d: int): real {
    d as real / 1_000_000_000.0
  }

  // ---------------------------------------------------------------- definitions over all results

  // The values of the results that satisfy a condition, in the order of the results.
  function Collect<E, U>(xs: seq<Result<E>>, p: Result<E> -> bool, f: Result<E> -> U): seq<U> {
    if xs == [] then []
    else if p(xs[|xs| - 1]) then Collect(xs[..|xs| - 1], p, f) + [f(xs[|xs| - 1])]
    else Collect(xs[..|xs| - 1], p, f)
  }

  function SumReal(xs: seq<real>): real {
    if xs == [] then 0.0 else SumReal(xs[..|xs| - 1]) + xs[|xs| - 1]
  }

  function SumNat(xs: seq<nat>): nat {
    if xs == [] then 0 else SumNat(xs[..|xs| - 1]) + xs[|xs| - 1]
  }

  function Max(a: int, b: int): int {
    if a < b then b else a
  }

  function Min(a: int, b: int): int {
    if b < a then b else a
  }

  // The greatest value, or `bottom` when none is greater.
  function MaxOf(bottom: int, xs: seq<int>): (m: int)
    ensures m >= bottom && (forall i :: 0 <= i < |xs| ==> xs[i] <= m)
    ensures m == bottom || m in xs
  {
    if xs == [] then bottom else Max(MaxOf(bottom, xs[..|xs| - 1]), xs[|xs| - 1])
  }

  // The least value, or `top` when none is less.
  function MinOf(top: int, xs: seq<int>): (m: int)
    ensures m <= top && (forall i :: 0 <= i < |xs| ==> m <= xs[i])
    ensures m == top || m in xs
  {
    if xs == [] then top else Min(MinOf(top, xs[..|xs| - 1]), xs[|xs| - 1])
  }

  // The conditions, for a number of messages per connection.
  function Connected<E>(): Result<E> -> bool { (r: Result<E>) => r.connected }
  function Unconnected<E>(): Result<E> -> bool { (r: Result<E>) => !r.connected }
  function SendOk<E>(mpc: nat): Result<E> -> bool { (r: Result<E>) => r.connected && r.msgsSent == mpc }
  function SendFailed<E>(mpc: nat): Result<E> -> bool { (r: Result<E>) => r.connected && r.msgsSent != mpc }
  function RecvOk<E>(mpc: nat): Result<E> -> bool { (r: Result<E>) => r.connected && r.msgsRecvd == mpc }
  function RecvFailed<E>(mpc: nat): Result<E> -> bool { (r: Result<E>) => r.connected && r.msgsRecvd != mpc }
  function Passed<E>(mpc: nat): Result<E> -> bool {
    (r: Result<E>) => r.connected && r.msgsSent == mpc && r.msgsRecvd == mpc
  }
  // A failed receive is filed under the first of these that applies.
  function ByRecvErr<E>(mpc: nat): Result<E> -> bool {
    (r: Result<E>) => r.connected && r.msgsRecvd != mpc && r.recvErr.Some?
  }
  function ByStopReason<E>(mpc: nat): Result<E> -> bool {
    (r: Result<E>) => r.connected && r.msgsRecvd != mpc && r.recvErr.None? && r.stopRecvReason.Some?
  }
  function ByServerErr<E>(mpc: nat): Result<E> -> bool {
    (r: Result<E>) => r.connected && r.msgsRecvd != mpc && r.recvErr.None? && r.stopRecvReason.None?
  }

  // The values that are collected.
  function ConnectDur<E>(r: Result<E>): int { r.connectDur }
  function SendDur<E>(r: Result<E>): int { r.sendDur }
  function RecvDur<E>(r: Result<E>): int { r.recvDur }
  function ConnectSecs<E>(r: Result<E>): real { Seconds(r.connectDur) }
  function SendSecs<E>(r: Result<E>): real { Seconds(r.sendDur) }
  function RecvSecs<E>(r: Result<E>): real { Seconds(r.recvDur) }
  function NumSent<E>(r: Result<E>): nat { r.msgsSent }
  function NumRecvd<E>(r: Result<E>): nat { r.msgsRecvd }
  function ConnectErr<E>(r: Result<E>): Option<E> { r.connectErr }
  function SendErr<E>(r: Result<E>): Option<E> { r.sendErr }
  function RecvErr<E>(r: Result<E>): Option<E> { r.recvErr }
  function StopReason<E>(r: Result<E>): Option<E> { r.stopRecvReason }
  function ServerErr<E>(r: Result<E>): string { r.serverErr }

  // ---------------------------------------------------------------- what the loop accumulates

  datatype ConnectStats<E> = ConnectStats(
    passedSum: real, failedSum: real, minPassed: int, maxPassed: int, maxFailed: int, errs: seq<Option<E>>)

  datatype SendStats<E> = SendStats(
    passedSum: real, failedSum: real, minPassed: int, maxPassed: int,
    failedMsgs: nat, minMsgs: int, maxMsgs: int, errs: seq<Option<E>>)

  datatype RecvStats<E> = RecvStats(
    passedSum: real, failedSum: real, minPassed: int, maxPassed: int,
    failedMsgs: nat, minMsgs: int, maxMsgs: int,
    recvErrs: seq<Option<E>>, stopReasons: seq<Option<E>>, serverErrs: seq<string>)

  ghost function ConnectOf<E>(xs: seq<Result<E>>): ConnectStats<E> {
    ConnectStats(
      SumReal(Collect(xs, Connected(), ConnectSecs)),
      SumReal(Collect(xs, Unconnected(), ConnectSecs)),
      MinOf(HOUR, Collect(xs, Connected(), ConnectDur)),
      MaxOf(0, Collect(xs, Connected(), ConnectDur)),
      MaxOf(0, Collect(xs, Unconnected(), ConnectDur)),
      Collect(xs, Unconnected(), ConnectErr))
  }

  ghost function SendOf<E>(xs: seq<Result<E>>, mpc: nat): SendStats<E> {
    SendStats(
      SumReal(Collect(xs, SendOk(mpc), SendSecs)),
      SumReal(Collect(xs, SendFailed(mpc), SendSecs)),
      MinOf(HOUR, Collect(xs, SendOk(mpc), SendDur)),
      MaxOf(0, Collect(xs, SendOk(mpc), SendDur)),
      SumNat(Collect(xs, SendFailed(mpc), NumSent)),
      MinOf(mpc, Collect(xs, SendFailed(mpc), NumSent)),
      MaxOf(0, Collect(xs, SendFailed(mpc), NumSent)),
      Collect(xs, SendFailed(mpc), SendErr))
  }

  ghost function RecvOf<E>(xs: seq<Result<E>>, mpc: nat): RecvStats<E> {
    RecvStats(
      SumReal(Collect(xs, RecvOk(mpc), RecvSecs)),
      SumReal(Collect(xs, RecvFailed(mpc), RecvSecs)),
      MinOf(HOUR, Collect(xs, RecvOk(mpc), RecvDur)),
      MaxOf(0, Collect(xs, RecvOk(mpc), RecvDur)),
      SumNat(Collect(xs, RecvFailed(mpc), NumRecvd)),
      MinOf(mpc, Collect(xs, RecvFailed(mpc), NumRecvd)),
      MaxOf(0, Collect(xs, RecvFailed(mpc), NumRecvd)),
      Collect(xs, ByRecvErr(mpc), RecvErr),
      Collect(xs, ByStopReason(mpc), StopReason),
      Collect(xs, ByServerErr(mpc), ServerErr))
  }

  // The position after the last result whose failed receive took any time; 0 when there is none.
  function AfterOverwrite<E>(xs: seq<Result<E>>, mpc: nat): (k: nat)
    ensures k <= |xs|
    ensures k > 0 ==> RecvFailed(mpc)(xs[k - 1]) && xs[k - 1].recvDur > 0
    ensures forall i :: k <= i < |xs| ==> !(RecvFailed(mpc)(xs[i]) && xs[i].recvDur > 0)
  {
    if xs == [] then 0
    else if RecvFailed(mpc)(xs[|xs| - 1]) && xs[|xs| - 1].recvDur > 0 then |xs|
    else AfterOverwrite(xs[..|xs| - 1], mpc)
  }

  function SendDurs<E>(xs: seq<Result<E>>, mpc: nat): seq<int> {
    Collect(xs, SendFailed(mpc), SendDur)
  }

  // What the loop leaves as the greatest duration of a failed send: every failed receive that
  // took any time overwrites it with its own duration.
  function ReportedMaxFailedSend<E>(xs: seq<Result<E>>, mpc: nat): int {
    var k := AfterOverwrite(xs, mpc);
    MaxOf(if k > 0 then xs[k - 1].recvDur else 0, SendDurs(xs[k..], mpc))
  }

  lemma CollectSnoc<E, U>(xs: seq<Result<E>>, x: Result<E>, p: Result<E> -> bool, f: Result<E> -> U)
    ensures Collect(xs + [x], p, f) == if p(x) then Collect(xs, p, f) + [f(x)] else Collect(xs, p, f)
  {
    assert (xs + [x])[..|xs|] == xs;
  }

  lemma MaxSnoc(bottom: int, xs: seq<int>, x: int)
    ensures MaxOf(bottom, xs + [x]) == Max(MaxOf(bottom, xs), x)
  {
    assert (xs + [x])[..|xs|] == xs;
  }

  lemma MinSnoc(top: int, xs: seq<int>, x: int)
    ensures MinOf(top, xs + [x]) == Min(MinOf(top, xs), x)
  {
    assert (xs + [x])[..|xs|] == xs;
  }

  lemma SumRealSnoc(xs: seq<real>, x: real)
    ensures SumReal(xs + [x]) == SumReal(xs) + x
  {
    assert (xs + [x])[..|xs|] == xs;
  }

  lemma SumNatSnoc(xs: seq<nat>, x: nat)
    ensures SumNat(xs + [x]) == SumNat(xs) + x
  {
    assert (xs + [x])[..|xs|] == xs;
  }

  lemma AfterSnoc<E>(xs: seq<Result<E>>, x: Result<E>, mpc: nat)
    ensures AfterOverwrite(xs + [x], mpc) ==
      if RecvFailed(mpc)(x) && x.recvDur > 0 then |xs| + 1 else AfterOverwrite(xs, mpc)
  {
    assert (xs + [x])[..|xs|] == xs;
  }

  lemma TailSnoc<E>(xs: seq<Result<E>>, x: Result<E>, k: nat, bottom: int, mpc: nat)
    requires k <= |xs|
    ensures MaxOf(bottom, SendDurs((xs + [x])[k..], mpc)) ==
      if SendFailed(mpc)(x) then Max(MaxOf(bottom, SendDurs(xs[k..], mpc)), x.sendDur)
      else MaxOf(bottom, SendDurs(xs[k..], mpc))
  {
    assert (xs + [x])[k..] == xs[k..] + [x];
    CollectSnoc(xs[k..], x, SendFailed(mpc), SendDur);
    hide Collect, MaxOf;
    if SendFailed(mpc)(x) {
      MaxSnoc(bottom, SendDurs(xs[k..], mpc), x.sendDur);
    }
  }

  // What one more result adds to each group of accumulators.

  function AfterConnect<E>(c: ConnectStats<E>, x: Result<E>): ConnectStats<E> {
    if x.connected
    then c.(passedSum := c.passedSum + Seconds(x.connectDur),
            minPassed := Min(c.minPassed, x.connectDur), maxPassed := Max(c.maxPassed, x.connectDur))
    else c.(failedSum := c.failedSum + Seconds(x.connectDur),
            maxFailed := Max(c.maxFailed, x.connectDur), errs := c.errs + [x.connectErr])
  }

  function AfterSend<E>(c: SendStats<E>, x: Result<E>, mpc: nat): SendStats<E> {
    if !x.connected then c
    else if x.msgsSent != mpc
    then c.(failedSum := c.failedSum + Seconds(x.sendDur), failedMsgs := c.failedMsgs + x.msgsSent,
            minMsgs := Min(c.minMsgs, x.msgsSent), maxMsgs := Max(c.maxMsgs, x.msgsSent),
            errs := c.errs + [x.sendErr])
    else c.(passedSum := c.passedSum + Seconds(x.sendDur),
            minPassed := Min(c.minPassed, x.sendDur), maxPassed := Max(c.maxPassed, x.sendDur))
  }

  function AfterRecv<E>(c: RecvStats<E>, x: Result<E>, mpc: nat): RecvStats<E> {
    if !x.connected then c
    else if x.msgsRecvd != mpc
    then
      var d := c.(failedSum := c.failedSum + Seconds(x.recvDur), failedMsgs := c.failedMsgs + x.msgsRecvd,
                  minMsgs := Min(c.minMsgs, x.msgsRecvd), maxMsgs := Max(c.maxMsgs, x.msgsRecvd));
      if x.recvErr.Some? then d.(recvErrs := d.recvErrs + [x.recvErr])
      else if x.stopRecvReason.Some? then d.(stopReasons := d.stopReasons + [x.stopRecvReason])
      else d.(serverErrs := d.serverErrs + [x.serverErr])
    else c.(passedSum := c.passedSum + Seconds(x.recvDur),
            minPassed := Min(c.minPassed, x.recvDur), maxPassed := Max(c.maxPassed, x.recvDur))
  }

  function AfterMaxSend<E>(m: int, x: Result<E>, mpc: nat): int {
    if RecvFailed(mpc)(x) && x.recvDur > 0 then x.recvDur
    else if SendFailed(mpc)(x) then Max(m, x.sendDur)
    else m
  }

  lemma ReportedSnoc<E>(xs: seq<Result<E>>, x: Result<E>, mpc: nat)
    ensures ReportedMaxFailedSend(xs + [x], mpc) == AfterMaxSend(ReportedMaxFailedSend(xs, mpc), x, mpc)
  {
    var k, ys := AfterOverwrite(xs, mpc), xs + [x];
    AfterSnoc(xs, x, mpc);
    if RecvFailed(mpc)(x) && x.recvDur > 0 {
      assert ys[|ys|..] == [];
    } else {
      hide SendDurs, MaxOf, AfterOverwrite;
      TailSnoc(xs, x, k, if k > 0 then xs[k - 1].recvDur else 0, mpc);
    }
  }

  lemma ConnectStep<E>(xs: seq<Result<E>>, x: Result<E>)
    ensures ConnectOf(xs + [x]) == AfterConnect(ConnectOf(xs), x)
  {
    CollectSnoc(xs, x, Connected(), ConnectSecs);
    CollectSnoc(xs, x, Unconnected(), ConnectSecs);
    CollectSnoc(xs, x, Connected(), ConnectDur);
    CollectSnoc(xs, x, Unconnected(), ConnectDur);
    CollectSnoc(xs, x, Unconnected(), ConnectErr);
    hide Collect, SumReal, MinOf, MaxOf;
    if x.connected {
      SumRealSnoc(Collect(xs, Connected(), ConnectSecs), Seconds(x.connectDur));
      MinSnoc(HOUR, Collect(xs, Connected(), ConnectDur), x.connectDur);
      MaxSnoc(0, Collect(xs, Connected(), ConnectDur), x.connectDur);
    } else {
      SumRealSnoc(Collect(xs, Unconnected(), ConnectSecs), Seconds(x.connectDur));
      MaxSnoc(0, Collect(xs, Unconnected(), ConnectDur), x.connectDur);
    }
  }

  lemma SendStep<E>(xs: seq<Result<E>>, x: Result<E>, mpc: nat)
    ensures SendOf(xs + [x], mpc) == AfterSend(SendOf(xs, mpc), x, mpc)
  {
    SendStepOk(xs, x, mpc);
    CollectSnoc(xs, x, SendFailed(mpc), SendSecs);
    CollectSnoc(xs, x, SendFailed(mpc), NumSent);
    CollectSnoc(xs, x, SendFailed(mpc), SendErr);
    hide Collect, SumReal, SumNat, MinOf, MaxOf;
    if SendFailed(mpc)(x) {
      var sent := Collect(xs, SendFailed(mpc), NumSent);
      SumRealSnoc(Collect(xs, SendFailed(mpc), SendSecs), Seconds(x.sendDur));
      SumNatSnoc(sent, x.msgsSent);
      MinSnoc(mpc, sent, x.msgsSent);
      MaxSnoc(0, sent, x.msgsSent);
    }
  }

  lemma SendStepOk<E>(xs: seq<Result<E>>, x: Result<E>, mpc: nat)
    ensures var c, c' := SendOf(xs, mpc), SendOf(xs + [x], mpc);
      if SendOk(mpc)(x)
      then c'.passedSum == c.passedSum + Seconds(x.sendDur)
        && c'.minPassed == Min(c.minPassed, x.sendDur) && c'.maxPassed == Max(c.maxPassed, x.sendDur)
      else c'.passedSum == c.passedSum && c'.minPassed == c.minPassed && c'.maxPassed == c.maxPassed
  {
    CollectSnoc(xs, x, SendOk(mpc), SendSecs);
    CollectSnoc(xs, x, SendOk(mpc), SendDur);
    hide Collect, SumReal, SumNat, MinOf, MaxOf;
    if SendOk(mpc)(x) {
      SumRealSnoc(Collect(xs, SendOk(mpc), SendSecs), Seconds(x.sendDur));
      MinSnoc(HOUR, Collect(xs, SendOk(mpc), SendDur), x.sendDur);
      MaxSnoc(0, Collect(xs, SendOk(mpc), SendDur), x.sendDur);
    }
  }

  lemma RecvStep<E>(xs: seq<Result<E>>, x: Result<E>, mpc: nat)
    ensures RecvOf(xs + [x], mpc) == AfterRecv(RecvOf(xs, mpc), x, mpc)
  {
    RecvStepOk(xs, x, mpc);
    CollectSnoc(xs, x, RecvFailed(mpc), RecvSecs);
    CollectSnoc(xs, x, RecvFailed(mpc), NumRecvd);
    CollectSnoc(xs, x, ByRecvErr(mpc), RecvErr);
    CollectSnoc(xs, x, ByStopReason(mpc), StopReason);
    CollectSnoc(xs, x, ByServerErr(mpc), ServerErr);
    hide Collect, SumReal, SumNat, MinOf, MaxOf;
    if RecvFailed(mpc)(x) {
      var recvd := Collect(xs, RecvFailed(mpc), NumRecvd);
      SumRealSnoc(Collect(xs, RecvFailed(mpc), RecvSecs), Seconds(x.recvDur));
      SumNatSnoc(recvd, x.msgsRecvd);
      MinSnoc(mpc, recvd, x.msgsRecvd);
      MaxSnoc(0, recvd, x.msgsRecvd);
    }
  }

  lemma RecvStepOk<E>(xs: seq<Result<E>>, x: Result<E>, mpc: nat)
    ensures var c, c' := RecvOf(xs, mpc), RecvOf(xs + [x], mpc);
      if RecvOk(mpc)(x)
      then c'.passedSum == c.passedSum + Seconds(x.recvDur)
        && c'.minPassed == Min(c.minPassed, x.recvDur) && c'.maxPassed == Max(c.maxPassed, x.recvDur)
      else c'.passedSum == c.passedSum && c'.minPassed == c.minPassed && c'.maxPassed == c.maxPassed
  {
    CollectSnoc(xs, x, RecvOk(mpc), RecvSecs);
    CollectSnoc(xs, x, RecvOk(mpc), RecvDur);
    hide Collect, SumReal, SumNat, MinOf, MaxOf;
    if RecvOk(mpc)(x) {
      SumRealSnoc(Collect(xs, RecvOk(mpc), RecvSecs), Seconds(x.recvDur));
      MinSnoc(HOUR, Collect(xs, RecvOk(mpc), RecvDur), x.recvDur);
      MaxSnoc(0, Collect(xs, RecvOk(mpc), RecvDur), x.recvDur);
    }
  }

  // How many results there are of each kind.
  function Count<E>(xs: seq<Result<E>>, p: Result<E> -> bool): nat {
    |Collect(xs, p, SendDur)|
  }

  // What one more result adds to everything.
  lemma LoopStep<E>(xs: seq<Result<E>>, x: Result<E>, mpc: nat)
    ensures ConnectOf(xs + [x]) == AfterConnect(ConnectOf(xs), x)
    ensures SendOf(xs + [x], mpc) == AfterSend(SendOf(xs, mpc), x, mpc)
    ensures RecvOf(xs + [x], mpc) == AfterRecv(RecvOf(xs, mpc), x, mpc)
    ensures ReportedMaxFailedSend(xs + [x], mpc) == AfterMaxSend(ReportedMaxFailedSend(xs, mpc), x, mpc)
    ensures Count(xs + [x], Passed(mpc)) == Count(xs, Passed(mpc)) + (if Passed(mpc)(x) then 1 else 0)
    ensures !x.connected ==>
      && SendOf(xs + [x], mpc) == SendOf(xs, mpc) && RecvOf(xs + [x], mpc) == RecvOf(xs, mpc)
      && ReportedMaxFailedSend(xs + [x], mpc) == ReportedMaxFailedSend(xs, mpc)
  {
    hide ConnectOf, SendOf, RecvOf, ReportedMaxFailedSend, Collect, AfterConnect;
    CollectSnoc(xs, x, Passed(mpc), SendDur);
    ConnectStep(xs, x);
    SendStep(xs, x, mpc);
    RecvStep(xs, x, mpc);
    ReportedSnoc(xs, x, mpc);
  }

  // ---------------------------------------------------------------- the loop

  // What is printed about those that passed, and about those that failed. Averages are in seconds.
  datatype Times = Times(min: int, average: real, max: int)

  datatype Failures = Failures(averageDur: real, maxDur: int, minMsgs: int, averageMsgs: real, maxMsgs: int)

  // The numbers runTest derives from the loop's, and the figures it prints; None is not printed.
  datatype Report<E> = Report(
    numPassed: nat, connect: ConnectStats<E>, send: SendStats<E>, recv: RecvStats<E>,
    maxFailedSendDur: int, maxFailedRecvDur: int,
    numConnected: nat, numPassedSend: nat, numFailedRecv: nat, numPassedRecv: nat,
    passedSend: Option<Times>, failedSend: Option<Failures>, passedRecv: Option<Times>, failedRecv: Option<Failures>)

  // The figures about `n` connections, if there are any.
  function TimesOf(n: nat, min: int, sum: real, max: int): Option<Times> {
    if n == 0 then None else Some(Times(min, sum / n as real, max))
  }

  function FailuresOf(n: nat, sum: real, maxDur: int, minMsgs: int, msgs: nat, maxMsgs: int): Option<Failures> {
    if n == 0 then None
    else Some(Failures(sum / n as real, maxDur, minMsgs, msgs as real / n as real, maxMsgs))
  }

  function WithBest<E>(numPassed: nat, mpc: nat, c: SendStats<E>): SendStats<E> {
    if numPassed != 0 then c.(maxMsgs := mpc) else c
  }

  function RecvWithBest<E>(numPassed: nat, mpc: nat, c: RecvStats<E>): RecvStats<E> {
    if numPassed != 0 then c.(maxMsgs := mpc) else c
  }

  lemma NoResults<E>(mpc: nat)
    ensures ConnectOf<E>([]) == ConnectStats(0.0, 0.0, HOUR, 0, 0, [])
    ensures SendOf<E>([], mpc) == SendStats(0.0, 0.0, HOUR, 0, 0, mpc, 0, [])
    ensures RecvOf<E>([], mpc) == RecvStats(0.0, 0.0, HOUR, 0, 0, mpc, 0, [], [], [])
    ensures ReportedMaxFailedSend<E>([], mpc) == 0 && Count<E>([], Passed(mpc)) == 0
  {
  }

  // The error lists in the accumulators.
  lemma ErrorLists<E>(xs: seq<Result<E>>, mpc: nat)
    ensures ConnectOf(xs).errs == Collect(xs, Unconnected(), ConnectErr)
    ensures SendOf(xs, mpc).errs == Collect(xs, SendFailed(mpc), SendErr)
    ensures RecvOf(xs, mpc).recvErrs == Collect(xs, ByRecvErr(mpc), RecvErr)
    ensures RecvOf(xs, mpc).stopReasons == Collect(xs, ByStopReason(mpc), StopReason)
    ensures RecvOf(xs, mpc).serverErrs == Collect(xs, ByServerErr(mpc), ServerErr)
  {
  }

  // The first block of the loop body.
  method AddConnect<E>(c: ConnectStats<E>, tres: Result<E>) returns (connect: ConnectStats<E>)
    ensures connect == AfterConnect(c, tres)
  {
    connect := c;
    if !tres.connected {
      connect := connect.(failedSum := connect.failedSum + Seconds(tres.connectDur));
      if tres.connectDur > connect.maxFailed {
        connect := connect.(maxFailed := tres.connectDur);
      }
      connect := connect.(errs := connect.errs + [tres.connectErr]);
    } else {
      connect := connect.(passedSum := connect.passedSum + Seconds(tres.connectDur));
      if tres.connectDur < connect.minPassed {
        connect := connect.(minPassed := tres.connectDur);
      }
      if tres.connectDur > connect.maxPassed {
        connect := connect.(maxPassed := tres.connectDur);
      }
    }
  }

  // The second block, for a result with a connection.
  method AddSend<E>(c: SendStats<E>, max: int, tres: Result<E>, mpc: nat)
    returns (send: SendStats<E>, maxFailedSendDur: int, ok: bool)
    requires tres.connected
    ensures send == AfterSend(c, tres, mpc)
    ensures maxFailedSendDur == if SendFailed(mpc)(tres) then Max(max, tres.sendDur) else max
    ensures ok == SendOk(mpc)(tres)
  {
    send, maxFailedSendDur, ok := c, max, true;
    if tres.msgsSent != mpc {
      ok := false;
      send := send.(failedMsgs := send.failedMsgs + tres.msgsSent);
      if tres.msgsSent > send.maxMsgs {
        send := send.(maxMsgs := tres.msgsSent);
      }
      if tres.msgsSent < send.minMsgs {
        send := send.(minMsgs := tres.msgsSent);
      }
      send := send.(failedSum := send.failedSum + Seconds(tres.sendDur));
      if tres.sendDur > maxFailedSendDur {
        maxFailedSendDur := tres.sendDur;
      }
      send := send.(errs := send.errs + [tres.sendErr]);
    } else {
      send := send.(passedSum := send.passedSum + Seconds(tres.sendDur));
      if tres.sendDur < send.minPassed {
        send := send.(minPassed := tres.sendDur);
      }
      if tres.sendDur > send.maxPassed {
        send := send.(maxPassed := tres.sendDur);
      }
    }
  }

  // The third block; as in the source it assigns the greatest duration of a failed receive to
  // the variable that holds the one of a failed send.
  method AddRecv<E>(c: RecvStats<E>, maxSend: int, maxFailedRecvDur: int, tres: Result<E>, mpc: nat)
    returns (recv: RecvStats<E>, maxFailedSendDur: int, ok: bool)
    requires tres.connected
    ensures recv == AfterRecv(c, tres, mpc)
    ensures maxFailedSendDur == if RecvFailed(mpc)(tres)
      && tres.recvDur > maxFailedRecvDur then tres.recvDur else maxSend
    ensures ok == RecvOk(mpc)(tres)
  {
    recv, maxFailedSendDur, ok := c, maxSend, true;
    if tres.msgsRecvd != mpc {
      ok := false;
      recv := recv.(failedMsgs := recv.failedMsgs + tres.msgsRecvd);
      if tres.msgsRecvd > recv.maxMsgs {
        recv := recv.(maxMsgs := tres.msgsRecvd);
      }
      if tres.msgsRecvd < recv.minMsgs {
        recv := recv.(minMsgs := tres.msgsRecvd);
      }
      recv := recv.(failedSum := recv.failedSum + Seconds(tres.recvDur));
      if tres.recvDur > maxFailedRecvDur {
        maxFailedSendDur := tres.recvDur;
      }
      if tres.recvErr.Some? {
        recv := recv.(recvErrs := recv.recvErrs + [tres.recvErr]);
      } else if tres.stopRecvReason.Some? {
        recv := recv.(stopReasons := recv.stopReasons + [tres.stopRecvReason]);
      } else {
        recv := recv.(serverErrs := recv.serverErrs + [tres.serverErr]);
      }
    } else {
      recv := recv.(passedSum := recv.passedSum + Seconds(tres.recvDur));
      if tres.recvDur < recv.minPassed {
        recv := recv.(minPassed := tres.recvDur);
      }
      if tres.recvDur > recv.maxPassed {
        recv := recv.(maxPassed := tres.recvDur);
      }
    }
  }

  // The loop over the results, one per connection.
  method Accumulate<E>(results: seq<Result<E>>, mpc: nat)
    returns (numPassed: nat, connect: ConnectStats<E>, send: SendStats<E>, recv: RecvStats<E>,
             maxFailedSendDur: int, maxFailedRecvDur: int)
    ensures numPassed == Count(results, Passed(mpc))
    ensures connect == ConnectOf(results)
    ensures send == SendOf(results, mpc)
    ensures recv == RecvOf(results, mpc)
    ensures maxFailedSendDur == ReportedMaxFailedSend(results, mpc)
    ensures maxFailedRecvDur == 0
  {
    hide ConnectOf, SendOf, RecvOf, ReportedMaxFailedSend, Count, AfterConnect, AfterSend, AfterRecv;
    numPassed := 0;
    connect := ConnectStats(0.0, 0.0, HOUR, 0, 0, []);
    send := SendStats(0.0, 0.0, HOUR, 0, 0, mpc, 0, []);
    recv := RecvStats(0.0, 0.0, HOUR, 0, 0, mpc, 0, [], [], []);
    maxFailedSendDur, maxFailedRecvDur := 0, 0;
    var i := 0;
    assert results[..0] == [];
    NoResults<E>(mpc);
    while i < |results|
      invariant 0 <= i <= |results|
      invariant numPassed == Count(results[..i], Passed(mpc))
      invariant connect == ConnectOf(results[..i])
      invariant send == SendOf(results[..i], mpc)
      invariant recv == RecvOf(results[..i], mpc)
      invariant maxFailedSendDur == ReportedMaxFailedSend(results[..i], mpc)
      invariant maxFailedRecvDur == 0
    {
      ghost var done := results[..i];
      var tres := results[i];
      assert results[..i + 1] == done + [tres];
      LoopStep(done, tres, mpc);
      i := i + 1;
      connect := AddConnect(connect, tres);
      if !tres.connected {
        continue;
      }
      var sendOk, recvOk;
      send, maxFailedSendDur, sendOk := AddSend(send, maxFailedSendDur, tres, mpc);
      recv, maxFailedSendDur, recvOk := AddRecv(recv, maxFailedSendDur, maxFailedRecvDur, tres, mpc);
      if sendOk && recvOk {
        numPassed := numPassed + 1;
      }
    }
    assert results[..|results|] == results;
  }

  // The connections that runTest counts as having passed: all that did not fail, unless none was
  // made, when it counts nothing.
  function PassedSends<E>(xs: seq<Result<E>>, mpc: nat): nat {
    if Count(xs, Connected()) == 0 then 0 else Count(xs, SendOk(mpc)) + Count(xs, Unconnected())
  }

  function PassedRecvs<E>(xs: seq<Result<E>>, mpc: nat): nat {
    if Count(xs, Connected()) == 0 then 0 else Count(xs, RecvOk(mpc)) + Count(xs, Unconnected())
  }

  // The figures printed.
  ghost function PrintedPassedSend<E>(xs: seq<Result<E>>, mpc: nat): Option<Times> {
    var c := SendOf(xs, mpc);
    TimesOf(PassedSends(xs, mpc), c.minPassed, c.passedSum, c.maxPassed)
  }

  ghost function PrintedPassedRecv<E>(xs: seq<Result<E>>, mpc: nat): Option<Times> {
    var c := RecvOf(xs, mpc);
    TimesOf(PassedRecvs(xs, mpc), c.minPassed, c.passedSum, c.maxPassed)
  }

  ghost function PrintedFailedSend<E>(xs: seq<Result<E>>, mpc: nat): Option<Failures> {
    var c := WithBest(Count(xs, Passed(mpc)), mpc, SendOf(xs, mpc));
    FailuresOf(
      Count(xs, SendFailed(mpc)), c.failedSum, ReportedMaxFailedSend(xs, mpc), c.minMsgs, c.failedMsgs, c.maxMsgs)
  }

  ghost function PrintedFailedRecv<E>(xs: seq<Result<E>>, mpc: nat): Option<Failures> {
    var c := RecvWithBest(Count(xs, Passed(mpc)), mpc, RecvOf(xs, mpc));
    FailuresOf(Count(xs, RecvFailed(mpc)), c.failedSum, 0, c.minMsgs, c.failedMsgs, c.maxMsgs)
  }

  /**
    The loop over the results, the numbers computed from it and the figures printed. When no
    connection was made nothing is printed about sending and receiving.
   */
  method RunTest<E>(results: seq<Result<E>>, mpc: nat) returns (r: Report<E>)
    ensures r.numPassed == Count(results, Passed(mpc))
    ensures r.connect == ConnectOf(results)
    ensures r.send == WithBest(r.numPassed, mpc, SendOf(results, mpc))
    ensures r.recv == RecvWithBest(r.numPassed, mpc, RecvOf(results, mpc))
    ensures r.maxFailedSendDur == ReportedMaxFailedSend(results, mpc)
    ensures r.maxFailedRecvDur == 0
    ensures r.numConnected == Count(results, Connected())
    ensures r.numPassedSend == PassedSends(results, mpc)
    ensures r.numFailedRecv == Count(results, RecvFailed(mpc))
    ensures r.numPassedRecv == PassedRecvs(results, mpc)
    ensures r.passedSend == PrintedPassedSend(results, mpc)
    ensures r.failedSend == PrintedFailedSend(results, mpc)
    ensures r.passedRecv == PrintedPassedRecv(results, mpc)
    ensures r.failedRecv == PrintedFailedRecv(results, mpc)
    ensures PassedFields(r.passedSend, r.numPassedSend, Collect(results, SendOk(mpc), SendDur),
                         Collect(results, SendOk(mpc), SendSecs))
    ensures PassedFields(r.passedRecv, r.numPassedRecv, Collect(results, RecvOk(mpc), RecvDur),
                         Collect(results, RecvOk(mpc), RecvSecs))
    ensures FailedFields(r.failedSend, Collect(results, SendFailed(mpc), SendSecs), ReportedMaxFailedSend(results, mpc),
                         Collect(results, SendFailed(mpc), NumSent), r.numPassed, mpc)
    ensures FailedFields(r.failedRecv, Collect(results, RecvFailed(mpc), RecvSecs), 0,
                         Collect(results, RecvFailed(mpc), NumRecvd), r.numPassed, mpc)
  {
    hide ConnectOf, SendOf, RecvOf, ReportedMaxFailedSend, Collect, Count;
    var numPassed, connect, send, recv, maxFailedSendDur, maxFailedRecvDur := Accumulate(results, mpc);
    Totals(results, mpc);
    ErrorLists(results, mpc);
    var numConnected := |results| - |connect.errs|;
    if numPassed != 0 {
      send, recv := send.(maxMsgs := mpc), recv.(maxMsgs := mpc);
    }
    var numPassedSend, numFailedRecv, numPassedRecv := 0, 0, 0;
    var passedSend, failedSend, passedRecv, failedRecv := None, None, None, None;
    if numConnected != 0 {
      numPassedSend := |results| - |send.errs|;
      passedSend := TimesOf(numPassedSend, send.minPassed, send.passedSum, send.maxPassed);
      failedSend := FailuresOf(
        |send.errs|, send.failedSum, maxFailedSendDur, send.minMsgs, send.failedMsgs, send.maxMsgs);
      numFailedRecv := |recv.recvErrs| + |recv.stopReasons| + |recv.serverErrs|;
      numPassedRecv := |results| - numFailedRecv;
      passedRecv := TimesOf(numPassedRecv, recv.minPassed, recv.passedSum, recv.maxPassed);
      failedRecv := FailuresOf(
        numFailedRecv, recv.failedSum, maxFailedRecvDur, recv.minMsgs, recv.failedMsgs, recv.maxMsgs);
    }
    r := Report(numPassed, connect, send, recv, maxFailedSendDur, maxFailedRecvDur,
                numConnected, numPassedSend, numFailedRecv, numPassedRecv,
                passedSend, failedSend, passedRecv, failedRecv);
    SendFields(results, mpc);
    RecvFields(results, mpc);
  }

  // What each printed figure means: the least, the average and the greatest duration of those that
  // passed, where the average is over the `n` connections counted as such.
  ghost predicate PassedFields(t: Option<Times>, n: nat, durs: seq<int>, secs: seq<real>) {
    && (t.None? <==> n == 0)
    && (t.Some? ==>
          && t.value.min == MinOf(HOUR, durs)
          && t.value.average * n as real == SumReal(secs)
          && t.value.max == MaxOf(0, durs))
  }

  // Of those that failed: the average and the greatest duration, and the least, the average and the
  // greatest number of messages, the last one overwritten when something passed.
  ghost predicate FailedFields(
      f: Option<Failures>, secs: seq<real>, maxDur: int, msgs: seq<nat>, numPassed: nat, mpc: nat) {
    && (f.None? <==> msgs == [])
    && (f.Some? ==>
          && f.value.averageDur * |msgs| as real == SumReal(secs)
          && f.value.maxDur == maxDur
          && f.value.minMsgs == MinOf(mpc, msgs)
          && f.value.averageMsgs * |msgs| as real == SumNat(msgs) as real
          && f.value.maxMsgs == if numPassed != 0 then mpc else MaxOf(0, msgs))
  }

  lemma SendFields<E>(xs: seq<Result<E>>, mpc: nat)
    ensures PassedFields(PrintedPassedSend(xs, mpc), PassedSends(xs, mpc),
                         Collect(xs, SendOk(mpc), SendDur), Collect(xs, SendOk(mpc), SendSecs))
    ensures FailedFields(PrintedFailedSend(xs, mpc), Collect(xs, SendFailed(mpc), SendSecs),
                         ReportedMaxFailedSend(xs, mpc), Collect(xs, SendFailed(mpc), NumSent),
                         Count(xs, Passed(mpc)), mpc)
  {
    SameCount(xs, SendFailed(mpc), NumSent);
    hide Collect, Count, PassedSends, SumReal, SumNat, MinOf, MaxOf, ReportedMaxFailedSend;
  }

  lemma RecvFields<E>(xs: seq<Result<E>>, mpc: nat)
    ensures PassedFields(PrintedPassedRecv(xs, mpc), PassedRecvs(xs, mpc),
                         Collect(xs, RecvOk(mpc), RecvDur), Collect(xs, RecvOk(mpc), RecvSecs))
    ensures FailedFields(PrintedFailedRecv(xs, mpc), Collect(xs, RecvFailed(mpc), RecvSecs), 0,
                         Collect(xs, RecvFailed(mpc), NumRecvd), Count(xs, Passed(mpc)), mpc)
  {
    SameCount(xs, RecvFailed(mpc), NumRecvd);
    hide Collect, Count, PassedRecvs, SumReal, SumNat, MinOf, MaxOf;
  }

  lemma {:induction false} SameCount<E, U>(xs: seq<Result<E>>, p: Result<E> -> bool, f: Result<E> -> U)
    ensures |Collect(xs, p, f)| == Count(xs, p)
  {
    if xs != [] {
      SameCount(xs[..|xs| - 1], p, f);
    }
  }

  /** Durations in nanoseconds are printed in seconds; the least of none is reported as an hour. */
  lemma SecondsAre(k: int)
    ensures Seconds(1_000_000_000 * k) == k as real
    ensures Seconds(HOUR) == 3600.0
  {
  }

  /**
    Every result is filed exactly once: connect failures, send passes and send failures add up to
    the number of connections, and so do connect failures, receive passes and the three kinds of
    receive failure.
   */
  lemma {:induction false} Totals<E>(xs: seq<Result<E>>, mpc: nat)
    ensures |Collect(xs, Unconnected(), ConnectErr)| == Count(xs, Unconnected())
    ensures |Collect(xs, SendFailed(mpc), SendErr)| == Count(xs, SendFailed(mpc))
    ensures |Collect(xs, ByRecvErr(mpc), RecvErr)| + |Collect(xs, ByStopReason(mpc), StopReason)|
            + |Collect(xs, ByServerErr(mpc), ServerErr)| == Count(xs, RecvFailed(mpc))
    ensures Count(xs, Connected()) + Count(xs, Unconnected()) == |xs|
    ensures Count(xs, Unconnected()) + Count(xs, SendOk(mpc)) + Count(xs, SendFailed(mpc)) == |xs|
    ensures Count(xs, Unconnected()) + Count(xs, RecvOk(mpc)) + Count(xs, RecvFailed(mpc)) == |xs|
  {
    if xs != [] {
      Totals(xs[..|xs| - 1], mpc);
    }
  }

  // ---------------------------------------------------------------- where the report is wrong

  lemma {:induction false} CollectConcat<E, U>(xs: seq<Result<E>>, ys: seq<Result<E>>, p: Result<E> -> bool,
    f: Result<E> -> U)
    ensures Collect(xs + ys, p, f) == Collect(xs, p, f) + Collect(ys, p, f)
  {
    if ys == [] {
      assert xs + ys == xs;
    } else {
      var y := ys[|ys| - 1];
      assert (xs + ys)[..|xs + ys| - 1] == xs + ys[..|ys| - 1];
      CollectConcat(xs, ys[..|ys| - 1], p, f);
    }
  }

  lemma MaxBottom(a: int, b: int, xs: seq<int>)
    ensures MaxOf(Max(a, b), xs) == Max(a, MaxOf(b, xs))
  {
  }

  lemma {:induction false} MaxConcat(bottom: int, xs: seq<int>, ys: seq<int>)
    ensures MaxOf(bottom, xs + ys) == MaxOf(MaxOf(bottom, xs), ys)
  {
    if ys == [] {
      assert xs + ys == xs;
    } else {
      assert (xs + ys)[..|xs + ys| - 1] == xs + ys[..|ys| - 1];
      MaxConcat(bottom, xs, ys[..|ys| - 1]);
    }
  }

  // The longest failed send, and what is reported of it, by the results up to a position and after.
  lemma SendDursSplit<E>(xs: seq<Result<E>>, mpc: nat, k: nat)
    requires k <= |xs|
    ensures MaxOf(0, SendDurs(xs, mpc)) == Max(MaxOf(0, SendDurs(xs[..k], mpc)), MaxOf(0, SendDurs(xs[k..], mpc)))
  {
    hide Collect, MaxOf;
    var before, after := SendDurs(xs[..k], mpc), SendDurs(xs[k..], mpc);
    assert xs == xs[..k] + xs[k..];
    CollectConcat(xs[..k], xs[k..], SendFailed(mpc), SendDur);
    MaxConcat(0, before, after);
    MaxBottom(MaxOf(0, before), 0, after);
  }

  lemma ReportedSplit<E>(xs: seq<Result<E>>, mpc: nat)
    ensures var k := AfterOverwrite(xs, mpc);
      ReportedMaxFailedSend(xs, mpc) == Max(if k > 0 then xs[k - 1].recvDur else 0, MaxOf(0, SendDurs(xs[k..], mpc)))
  {
    hide SendDurs, MaxOf, AfterOverwrite;
    var k := AfterOverwrite(xs, mpc);
    MaxBottom(if k > 0 then xs[k - 1].recvDur else 0, 0, SendDurs(xs[k..], mpc));
  }

  // The loop's greatest duration of a failed send against the true one.
  lemma MaxFailedSendIff<E>(xs: seq<Result<E>>, mpc: nat)
    ensures ReportedMaxFailedSend(xs, mpc) == MaxOf(0, SendDurs(xs, mpc)) <==> LuckyOverwrite(xs, mpc)
  {
    hide SendDurs, MaxOf, AfterOverwrite, ReportedMaxFailedSend;
    var k := AfterOverwrite(xs, mpc);
    SendDursSplit(xs, mpc, k);
    ReportedSplit(xs, mpc);
    if k == 0 {
      assert xs[k..] == xs;
    }
  }

  // No failed receive took any time; or, with `r` the duration of the last one that did, the
  // longest failed send up to there took exactly `r`, or one after it took at least as long as both.
  predicate LuckyOverwrite<E>(xs: seq<Result<E>>, mpc: nat) {
    var k := AfterOverwrite(xs, mpc);
    var before, after := MaxOf(0, SendDurs(xs[..k], mpc)), MaxOf(0, SendDurs(xs[k..], mpc));
    k == 0 || before == xs[k - 1].recvDur || (after >= before && after >= xs[k - 1].recvDur)
  }

  /**
    Exactly when the printed greatest duration of a failed send is right: when no send failed, and
    so none is printed, or when the failed receives happen not to have spoilt it.
   */
  lemma MaxFailedSendRightIff<E>(xs: seq<Result<E>>, mpc: nat)
    ensures (PrintedFailedSend(xs, mpc).Some? ==>
               PrintedFailedSend(xs, mpc).value.maxDur == MaxOf(0, SendDurs(xs, mpc)))
      <==> Count(xs, SendFailed(mpc)) == 0 || LuckyOverwrite(xs, mpc)
  {
    hide SendOf, ReportedMaxFailedSend, MaxOf, SendDurs, LuckyOverwrite, Count;
    MaxFailedSendIff(xs, mpc);
  }

  /**
    The greatest duration of a failed receive is printed, if any is, as zero: right iff no failed
    receive took any time.
   */
  lemma MaxFailedRecvRightIff<E>(xs: seq<Result<E>>, mpc: nat)
    ensures (PrintedFailedRecv(xs, mpc).Some? ==>
               PrintedFailedRecv(xs, mpc).value.maxDur == MaxOf(0, Collect(xs, RecvFailed(mpc), RecvDur)))
      <==> forall i :: 0 <= i < |xs| ==> !(xs[i].connected && xs[i].msgsRecvd != mpc && xs[i].recvDur > 0)
  {
    hide RecvOf, MaxOf, Collect;
    MaxFailedRecvIff(xs, mpc);
    CountZero(xs, RecvFailed(mpc));
  }

  lemma {:induction false} MaxFailedRecvIff<E>(xs: seq<Result<E>>, mpc: nat)
    ensures MaxOf(0, Collect(xs, RecvFailed(mpc), RecvDur)) == 0 <==>
      forall i :: 0 <= i < |xs| ==> !(xs[i].connected && xs[i].msgsRecvd != mpc && xs[i].recvDur > 0)
  {
    if xs != [] {
      var n := |xs| - 1;
      MaxFailedRecvIff(xs[..n], mpc);
      assert xs == xs[..n] + [xs[n]];
      CollectSnoc(xs[..n], xs[n], RecvFailed(mpc), RecvDur);
      if RecvFailed(mpc)(xs[n]) {
        MaxSnoc(0, Collect(xs[..n], RecvFailed(mpc), RecvDur), xs[n].recvDur);
      }
    }
  }

  lemma {:induction false} NoValue<E>(xs: seq<Result<E>>, p: Result<E> -> bool, f: Result<E> -> nat, v: nat)
    requires forall r: Result<E> :: p(r) ==> f(r) != v
    ensures v !in Collect(xs, p, f)
    ensures Collect(xs, p, f) == [] <==> Count(xs, p) == 0
  {
    if xs != [] {
      NoValue(xs[..|xs| - 1], p, f, v);
    }
  }

  /**
    Exactly when the printed greatest number of messages that a failed connection sent, or
    received, is right: when nothing failed there, and so none is printed, or when no connection
    passed, since it is then not overwritten.
   */
  lemma MaxMsgsRightIff<E>(xs: seq<Result<E>>, mpc: nat)
    ensures (PrintedFailedSend(xs, mpc).Some? ==> PrintedFailedSend(xs, mpc).value.maxMsgs == SendOf(xs, mpc).maxMsgs)
      <==> Count(xs, SendFailed(mpc)) == 0 || Count(xs, Passed(mpc)) == 0
    ensures (PrintedFailedRecv(xs, mpc).Some? ==> PrintedFailedRecv(xs, mpc).value.maxMsgs == RecvOf(xs, mpc).maxMsgs)
      <==> Count(xs, RecvFailed(mpc)) == 0 || Count(xs, Passed(mpc)) == 0
  {
    NoValue(xs, SendFailed(mpc), NumSent, mpc);
    NoValue(xs, RecvFailed(mpc), NumRecvd, mpc);
    hide Collect, Count, ReportedMaxFailedSend, SumReal, SumNat, MinOf, MaxOf;
    GreatestIs(Collect(xs, SendFailed(mpc), NumSent), mpc);
    GreatestIs(Collect(xs, RecvFailed(mpc), NumRecvd), mpc);
  }

  lemma GreatestIs(xs: seq<nat>, v: nat)
    requires v !in xs
    ensures MaxOf(0, xs) == v <==> v == 0 && xs == []
  {
    if xs != [] && MaxOf(0, xs) == 0 {
      assert xs[0] <= 0;
    }
  }

  lemma {:induction false} CountZero<E>(xs: seq<Result<E>>, p: Result<E> -> bool)
    ensures Count(xs, p) == 0 <==> forall i :: 0 <= i < |xs| ==> !p(xs[i])
  {
    if xs != [] {
      CountZero(xs[..|xs| - 1], p);
    }
  }

  // An average over more connections than it should be is right only when the sum is zero.
  lemma TimesRightIff(n: nat, more: nat, min: int, sum: real, max: int)
    ensures TimesOf(n + more, min, sum, max) == TimesOf(n, min, sum, max) <==> more == 0 || (n != 0 && sum == 0.0)
  {
    if n != 0 && more != 0 {
      var a, b := n as real, (n + more) as real;
      assert sum == (sum / a) * a && sum == (sum / b) * b;
      if sum / a == sum / b {
        assert (sum / a) * (b - a) == 0.0;
      }
    }
  }

  /**
    Exactly when the numbers of connections that passed sending, and receiving, are right, and so
    the times printed for them: when none was made or all were. Otherwise those never made count as
    passed, and the printed times are right only if some passed and took no time at all.
   */
  lemma PassedRightIff<E>(xs: seq<Result<E>>, mpc: nat)
    ensures var allOrNone := Count(xs, Connected()) == 0 || Count(xs, Unconnected()) == 0;
      var s, r := SendOf(xs, mpc), RecvOf(xs, mpc);
      var sends, recvs := Count(xs, SendOk(mpc)), Count(xs, RecvOk(mpc));
      && (PassedSends(xs, mpc) == sends <==> allOrNone)
      && (PassedRecvs(xs, mpc) == recvs <==> allOrNone)
      && (PrintedPassedSend(xs, mpc) == TimesOf(sends, s.minPassed, s.passedSum, s.maxPassed)
          <==> allOrNone || (sends != 0 && s.passedSum == 0.0))
      && (PrintedPassedRecv(xs, mpc) == TimesOf(recvs, r.minPassed, r.passedSum, r.maxPassed)
          <==> allOrNone || (recvs != 0 && r.passedSum == 0.0))
  {
    hide SendOf, RecvOf, Count, TimesOf;
    Totals(xs, mpc);
    var s, r := SendOf(xs, mpc), RecvOf(xs, mpc);
    TimesRightIff(Count(xs, SendOk(mpc)), Count(xs, Unconnected()), s.minPassed, s.passedSum, s.maxPassed);
    TimesRightIff(Count(xs, RecvOk(mpc)), Count(xs, Unconnected()), r.minPassed, r.passedSum, r.maxPassed);
  }
}
