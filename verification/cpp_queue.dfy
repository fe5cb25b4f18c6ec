/**
  The write queue of one connection of the C++ server (wschat-cpp/include/websocket.cpp).
  `send` posts `on_send` to the connection's strand, which runs posted handlers one at a time
  and in order; `on_send` and `on_write` push and pop `queue_` and chain asynchronous writes.
 */
module CppQueue {
  import opened Options

  // `posts` holds the messages of the on_send handlers waiting on the strand and `inflight`
  // those of the asynchronous writes whose completion has not been handled. The rest records
  // what happened: all send calls, all writes started, all writes completed, a write error, and
  // whether queue_ was ever popped when empty.
  datatype Conn<T> = Conn(
    posts: seq<T>, queue: seq<T>, inflight: seq<T>,
    sent: seq<T>, started: seq<T>, done: seq<T>, failed: bool, fault: bool)

  function NewConn<T>(): Conn<T> {
    Conn([], [], [], [], [], [], false, false)
  }

  function Send<T>(c: Conn<T>, msg: T): Conn<T> {
    c.(posts := c.posts + [msg], sent := c.sent + [msg])
  }

  function AsyncWrite<T>(c: Conn<T>, msg: T): Conn<T> {
    c.(inflight := c.inflight + [msg], started := c.started + [msg])
  }

  function OnSend<T>(c: Conn<T>): Conn<T>
    requires c.posts != []
  {
    var c' := c.(posts := c.posts[1..], queue := c.queue + [c.posts[0]]);
    if |c'.queue| > 1 then c' else AsyncWrite(c', c'.queue[0])
  }

  function OnWrite<T>(c: Conn<T>, error: bool): Conn<T>
    requires c.inflight != []
  {
    var c' := c.(inflight := c.inflight[1..]);
    if error then c'.(failed := true)
    else if c.queue == [] then c'.(fault := true)
    else
      var c'' := c'.(done := c.done + [c.inflight[0]], queue := c.queue[1..]);
      if c''.queue == [] then c'' else AsyncWrite(c'', c''.queue[0])
  }

  /** The connection object: `queue` is the source's field, the rest is the I/O around it. */
  class WsConn<T> {
    var queue: seq<T>
    var posts: seq<T>
    var inflight: seq<T>
    ghost var sent: seq<T>
    ghost var started: seq<T>
    ghost var done: seq<T>
    ghost var failed: bool

    ghost function View(): Conn<T>
      reads this
    {
      Conn(posts, queue, inflight, sent, started, done, failed, false)
    }

    constructor ()
      ensures View() == NewConn()
    {
      queue, posts, inflight := [], [], [];
      sent, started, done, failed := [], [], [], false;
    }

    method Post(msg: T)
      modifies this
      ensures View() == Send(old(View()), msg)
    {
      posts := posts + [msg];
      sent := sent + [msg];
    }

    method StartWrite()
      requires queue != []
      modifies this`inflight, this`started
      ensures View() == AsyncWrite(old(View()), queue[0])
    {
      inflight := inflight + [queue[0]];
      started := started + [queue[0]];
    }

    // The strand runs the handler at the head of its line.
    method RunOnSend()
      requires posts != []
      modifies this
      ensures View() == OnSend(old(View()))
    {
      queue := queue + [posts[0]];
      posts := posts[1..];
      if |queue| > 1 {
        return;
      }
      StartWrite();
    }

    method RunOnWrite(error: bool)
      requires Inv(View()) && inflight != []
      modifies this
      ensures View() == OnWrite(old(View()), error)
      ensures Inv(View())
    {
      ghost var before := View();
      OnWriteInv(before, error);
      done := if error then done else done + [inflight[0]];
      inflight := inflight[1..];
      if error {
        failed := true;
        return;
      }
      queue := queue[1..];
      if queue != [] {
        StartWrite();
      }
    }
  }

  // ---------------------------------------------------------------- runs

  datatype Choice<T> = CallSend(msg: T) | StrandOnSend | StrandOnWrite(error: bool)

  function Step<T>(c: Conn<T>, ch: Choice<T>): Option<Conn<T>> {
    match ch
    case CallSend(m) => Some(Send(c, m))
    case StrandOnSend => if c.posts == [] then None else Some(OnSend(c))
    case StrandOnWrite(error) => if c.inflight == [] then None else Some(OnWrite(c, error))
  }

  function Exec<T>(c: Conn<T>, cs: seq<Choice<T>>): Option<Conn<T>>
    decreases |cs|
  {
    if cs == [] then Some(c)
    else match Step(c, cs[0])
      case None => None
      case Some(c') => Exec(c', cs[1..])
  }

  // Before an error a write is outstanding exactly when the queue is not empty, and it is that
  // of the queue's front; after an error none is, and the queue keeps the failed message.
  ghost predicate Inv<T>(c: Conn<T>) {
    && !c.fault
    && c.done + c.queue + c.posts == c.sent
    && (!c.failed ==> c.inflight == (if c.queue == [] then [] else [c.queue[0]]))
    && (!c.failed ==> c.started == c.done + c.inflight)
    && (c.failed ==> c.inflight == [] && c.queue != [] && c.started == c.done + [c.queue[0]])
  }

  lemma OnSendInv<T>(c: Conn<T>)
    requires Inv(c) && c.posts != []
    ensures Inv(OnSend(c))
  {
    assert c.queue + c.posts == (c.queue + [c.posts[0]]) + c.posts[1..];
  }

  lemma OnWriteInv<T>(c: Conn<T>, error: bool)
    requires Inv(c) && c.inflight != []
    ensures Inv(OnWrite(c, error))
  {
    assert c.queue == [c.queue[0]] + c.queue[1..];
    assert c.started == c.done + [c.queue[0]];
  }

  lemma StepInv<T>(c: Conn<T>, ch: Choice<T>)
    requires Inv(c) && Step(c, ch).Some?
    ensures Inv(Step(c, ch).value)
  {
    match ch
    case CallSend(m) =>
    case StrandOnSend => OnSendInv(c);
    case StrandOnWrite(error) => OnWriteInv(c, error);
  }

  lemma {:induction false} ExecInv<T>(c: Conn<T>, cs: seq<Choice<T>>)
    requires Inv(c) && Exec(c, cs).Some?
    ensures Inv(Exec(c, cs).value)
    decreases |cs|
  {
    if cs != [] {
      StepInv(c, cs[0]);
      ExecInv(Step(c, cs[0]).value, cs[1..]);
    }
  }

  // ---------------------------------------------------------------- theorems over whole runs

  /**
    FIFO with a single outstanding write. In every run the completed writes, then the queue, then
    the pending posts are the sequence of send calls; before an error exactly one write is
    outstanding if and only if the queue is not empty, and the empty queue is never popped.
   */
  lemma Fifo<T>(cs: seq<Choice<T>>, c: Conn<T>)
    requires Exec(NewConn(), cs) == Some(c)
    ensures c.done + c.queue + c.posts == c.sent && c.done <= c.sent
    ensures !c.failed ==> |c.inflight| == (if c.queue == [] then 0 else 1)
    ensures !c.failed && c.queue != [] ==> c.inflight == [c.queue[0]]
    ensures !c.fault
  {
    ExecInv(NewConn(), cs);
    assert c.sent[..|c.done|] == c.done;
  }

  /** After a write error nothing is written ever again, whatever is still sent. */
  lemma {:induction false} SilentAfterError<T>(c: Conn<T>, cs: seq<Choice<T>>)
    requires Inv(c) && c.failed && Exec(c, cs).Some?
    ensures Exec(c, cs).value.started == c.started
    ensures Exec(c, cs).value.done == c.done
    ensures Exec(c, cs).value.inflight == []
    decreases |cs|
  {
    if cs != [] {
      StepInv(c, cs[0]);
      SilentAfterError(Step(c, cs[0]).value, cs[1..]);
    }
  }

  /** When the strand has nothing left to run and no write failed, every message was written. */
  lemma DrainsCompletely<T>(cs: seq<Choice<T>>, c: Conn<T>)
    requires Exec(NewConn(), cs) == Some(c)
    requires Step(c, StrandOnSend).None? && Step(c, StrandOnWrite(false)).None?
    ensures !c.failed ==> c.done == c.sent
  {
    Fifo(cs, c);
  }
}
