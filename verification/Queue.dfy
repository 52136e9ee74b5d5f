/** A client's outbound queue: any number of goroutines enqueue while one writes.
    The steps are the atomic operations on the byte counter and on the channel; every
    interleaving of them is a run. */
module Queue {
  const QUEUE_MESSAGES: nat := 256
  const QUEUE_BYTES: int := 64 * 1024 * 1024

  /** An enqueue past its first Add: admitted, or refused and about to give its bytes back. */
  datatype Call = Call(msg: string, admitted: bool)

  datatype State = State(
    pending: int,            // the byte counter
    calls: seq<Call>,        // enqueues in progress
    queue: seq<string>,      // the channel
    writing: seq<string>,    // the message the writer holds, if any
    closed: bool, stopped: bool,
    accepted: seq<string>,   // what enqueues put in the channel, in order
    written: seq<string>)    // what the writer is done with, in order

  const EMPTY := State(0, [], [], [], false, false, [], [])

  datatype Step =
    | Reserve(msg: string)   // pending.Add(n), and what its result says
    | GiveBack(call: nat)    // pending.Add(-n) of a refused enqueue
    | Send(call: nat)        // the select finds room
    | Refuse(call: nat)      // the select finds the connection closed, or the channel full
    | Take                   // the writer receives a message
    | Wrote(failed: bool)    // the write ends; pending.Add(-n); a failure drops the client
    | Stop                   // the writer sees the connection closed
    | Close

  function Removed(calls: seq<Call>, k: nat): seq<Call>
    requires k < |calls|
  {
    calls[..k] + calls[k + 1..]
  }

  /** Whether an Add of n bytes that made the counter p admits the message. */
  predicate Admits(p: int, n: int) {
    !(p > QUEUE_BYTES && p != n)
  }

  /** When a step can happen. */
  predicate Enabled(s: State, step: Step) {
    match step
    case Reserve(_) => true
    case GiveBack(k) => k < |s.calls| && !s.calls[k].admitted
    case Send(k) => k < |s.calls| && s.calls[k].admitted && |s.queue| < QUEUE_MESSAGES
    case Refuse(k) => k < |s.calls| && s.calls[k].admitted && (s.closed || |s.queue| == QUEUE_MESSAGES)
    case Take => !s.stopped && s.writing == [] && s.queue != []
    case Wrote(_) => s.writing != []
    case Stop => !s.stopped && s.writing == [] && s.closed
    case Close => true
  }

  function Next(s: State, step: Step): State
    requires Enabled(s, step)
  {
    match step
    case Reserve(msg) =>
      var p := s.pending + |msg|;
      s.(pending := p, calls := s.calls + [Call(msg, Admits(p, |msg|))])
    case GiveBack(k) =>
      s.(pending := s.pending - |s.calls[k].msg|, calls := Removed(s.calls, k))
    case Send(k) =>
      var msg := s.calls[k].msg;
      s.(calls := Removed(s.calls, k), queue := s.queue + [msg], accepted := s.accepted + [msg])
    case Refuse(k) =>
      s.(calls := s.calls[k := s.calls[k].(admitted := false)])
    case Take =>
      s.(writing := [s.queue[0]], queue := s.queue[1..])
    case Wrote(failed) =>
      s.(pending := s.pending - |s.writing[0]|, writing := [], written := s.written + s.writing,
         stopped := s.stopped || failed, closed := s.closed || failed)
    case Stop => s.(stopped := true)
    case Close => s.(closed := true)
  }

  // Bytes

  /** Bytes of a message, or whether it has any. */
  function Weight(msg: string, bytes: bool): nat {
    if bytes then |msg| else if msg == "" then 0 else 1
  }

  function Sum(msgs: seq<string>, bytes: bool): nat {
    if msgs == [] then 0 else Weight(msgs[0], bytes) + Sum(msgs[1..], bytes)
  }

  function Bytes(msgs: seq<string>): nat { Sum(msgs, true) }

  function NonEmpty(msgs: seq<string>): nat { Sum(msgs, false) }

  function Messages(calls: seq<Call>, admitted: bool): seq<string> {
    if calls == [] then []
    else (if calls[0].admitted == admitted then [calls[0].msg] else []) + Messages(calls[1..], admitted)
  }

  /** Everything admitted: being written, queued, or on its way into the channel. */
  function Held(s: State): seq<string> {
    s.writing + s.queue + Messages(s.calls, true)
  }

  lemma {:induction false} SumAdd(a: seq<string>, b: seq<string>, bytes: bool)
    ensures Sum(a + b, bytes) == Sum(a, bytes) + Sum(b, bytes)
    decreases |a|
  {
    if a == [] {
      assert a + b == b;
    } else {
      assert (a + b)[1..] == a[1..] + b;
      SumAdd(a[1..], b, bytes);
    }
  }

  lemma SumOne(msg: string, bytes: bool)
    ensures Sum([msg], bytes) == Weight(msg, bytes)
  {
    assert [msg][1..] == [];
  }

  lemma {:induction false} MessagesAdd(a: seq<Call>, b: seq<Call>, admitted: bool)
    ensures Messages(a + b, admitted) == Messages(a, admitted) + Messages(b, admitted)
    decreases |a|
  {
    if a == [] {
      assert a + b == b;
    } else {
      assert (a + b)[1..] == a[1..] + b;
      MessagesAdd(a[1..], b, admitted);
    }
  }

  function Own(call: Call, admitted: bool, bytes: bool): nat {
    if call.admitted == admitted then Weight(call.msg, bytes) else 0
  }

  /** What is held is what is being written, queued and admitted; of the calls, one apart. */
  lemma CallSum(calls: seq<Call>, k: nat, admitted: bool, bytes: bool)
    requires k < |calls|
    ensures Sum(Messages(calls, admitted), bytes)
         == Sum(Messages(Removed(calls, k), admitted), bytes) + Own(calls[k], admitted, bytes)
  {
    var one := [calls[k]];
    assert one[1..] == [];
    assert calls == calls[..k] + one + calls[k + 1..];
    MessagesAdd(calls[..k] + one, calls[k + 1..], admitted);
    MessagesAdd(calls[..k], one, admitted);
    MessagesAdd(calls[..k], calls[k + 1..], admitted);
    var a, b := Messages(calls[..k], admitted), Messages(calls[k + 1..], admitted);
    SumAdd(a + Messages(one, admitted), b, bytes);
    SumAdd(a, Messages(one, admitted), bytes);
    SumAdd(a, b, bytes);
    SumOne(calls[k].msg, bytes);
  }

  lemma HeldSum(s: State, bytes: bool)
    ensures Sum(Held(s), bytes) == Sum(s.writing, bytes) + Sum(s.queue, bytes) + Sum(Messages(s.calls, true), bytes)
  {
    SumAdd(s.writing + s.queue, Messages(s.calls, true), bytes);
    SumAdd(s.writing, s.queue, bytes);
  }

  lemma {:induction false} NoBytes(msgs: seq<string>)
    ensures Bytes(msgs) == 0 ==> NonEmpty(msgs) == 0
  {
    if msgs == [] {
    } else {
      NoBytes(msgs[1..]);
    }
  }

  // What every interleaving keeps

  /** The counter is exactly what is queued, being written, or reserved by a call. */
  predicate Counted(s: State) {
    s.pending == Bytes(Held(s)) + Bytes(Messages(s.calls, false))
  }

  /** What was admitted fits the budget, or only one message of it has any bytes. */
  predicate Bounded(s: State) {
    Bytes(Held(s)) <= QUEUE_BYTES || NonEmpty(Held(s)) <= 1
  }

  /** Messages leave in the order they got in, none lost, none twice. */
  predicate Ordered(s: State) {
    && |s.writing| <= 1 && |s.queue| <= QUEUE_MESSAGES
    && s.accepted == s.written + s.writing + s.queue
  }

  predicate Inv(s: State) {
    Counted(s) && Bounded(s) && Ordered(s)
  }

  /** What a step adds to the messages held. */
  function HeldBy(s: State, step: Step, bytes: bool): int
    requires Enabled(s, step)
  {
    match step
    case Reserve(msg) => if Admits(s.pending + |msg|, |msg|) then Weight(msg, bytes) else 0
    case Refuse(k) => 0 - Weight(s.calls[k].msg, bytes)
    case Wrote(_) => 0 - Weight(s.writing[0], bytes)
    case _ => 0
  }

  /** What it adds to those refused and not yet given back. */
  function RefusedBy(s: State, step: Step, bytes: bool): int
    requires Enabled(s, step)
  {
    match step
    case Reserve(msg) => if Admits(s.pending + |msg|, |msg|) then 0 else Weight(msg, bytes)
    case GiveBack(k) => 0 - Weight(s.calls[k].msg, bytes)
    case Refuse(k) => Weight(s.calls[k].msg, bytes)
    case _ => 0
  }

  lemma StepSums(s: State, step: Step, bytes: bool)
    requires Enabled(s, step) && Ordered(s)
    ensures Sum(Held(Next(s, step)), bytes) - Sum(Held(s), bytes) == HeldBy(s, step, bytes)
    ensures Sum(Messages(Next(s, step).calls, false), bytes) - Sum(Messages(s.calls, false), bytes) ==
            RefusedBy(s, step, bytes)
  {
    hide Sum, Messages, Held, Admits;
    var t := Next(s, step);
    HeldSum(s, bytes);
    HeldSum(t, bytes);
    NoneSum(bytes);
    match step
    case Reserve(msg) => ReserveSums(s.calls, Call(msg, Admits(s.pending + |msg|, |msg|)), bytes);
    case GiveBack(k) =>
      CallSum(s.calls, k, true, bytes);
      CallSum(s.calls, k, false, bytes);
    case Send(k) =>
      CallSum(s.calls, k, true, bytes);
      CallSum(s.calls, k, false, bytes);
      SumAdd(s.queue, [s.calls[k].msg], bytes);
      SumOne(s.calls[k].msg, bytes);
    case Refuse(k) =>
      assert Removed(t.calls, k) == Removed(s.calls, k);
      CallSum(s.calls, k, true, bytes);
      CallSum(s.calls, k, false, bytes);
      CallSum(t.calls, k, true, bytes);
      CallSum(t.calls, k, false, bytes);
    case Take =>
      SumAdd([s.queue[0]], s.queue[1..], bytes);
      assert s.queue == [s.queue[0]] + s.queue[1..];
    case Wrote(_) =>
      assert s.writing == [s.writing[0]];
      SumOne(s.writing[0], bytes);
    case _ =>
  }

  lemma NoneSum(bytes: bool)
    ensures Sum([], bytes) == 0
  {
  }

  lemma ReserveSums(calls: seq<Call>, call: Call, bytes: bool)
    ensures Sum(Messages(calls + [call], true), bytes) == Sum(Messages(calls, true), bytes) + Own(call, true, bytes)
    ensures Sum(Messages(calls + [call], false), bytes) == Sum(Messages(calls, false), bytes) + Own(call, false, bytes)
  {
    var more := calls + [call];
    assert Removed(more, |calls|) == calls;
    CallSum(more, |calls|, true, bytes);
    CallSum(more, |calls|, false, bytes);
  }

  lemma StepOrdered(s: State, step: Step)
    requires Enabled(s, step) && Ordered(s)
    ensures Ordered(Next(s, step))
  {
    match step
    case Take =>
      assert s.queue == [s.queue[0]] + s.queue[1..];
    case _ =>
  }

  /** Every step of every goroutine keeps the accounting, the budget and the order. */
  lemma StepKeeps(s: State, step: Step)
    requires Enabled(s, step) && Inv(s)
    ensures Inv(Next(s, step))
  {
    hide Next, Messages, Sum, Held, Ordered, Removed;
    StepOrdered(s, step);
    StepSums(s, step, true);
    StepSums(s, step, false);
    StepPending(s, step);
    NoBytes(Held(s));
  }

  /** The counter moves with both. */
  lemma StepPending(s: State, step: Step)
    requires Enabled(s, step)
    ensures Next(s, step).pending - s.pending == HeldBy(s, step, true) + RefusedBy(s, step, true)
  {
  }

  /** A message is admitted exactly if with it all that is held or being given back is
      within 64 MiB, or if none of that has a byte. */
  lemma AdmittedIff(s: State, msg: string)
    requires Inv(s)
    ensures Enabled(s, Reserve(msg))
    ensures var t := Next(s, Reserve(msg));
            var others := Bytes(Held(s)) + Bytes(Messages(s.calls, false));
            && |t.calls| == |s.calls| + 1 && t.calls[|s.calls|].msg == msg
            && (t.calls[|s.calls|].admitted <==> others + |msg| <= 64 * 1024 * 1024 || others == 0)
  {
    hide Sum, Messages, Held;
  }

  /** A call goes on whatever the others do: an admitted message into the channel if that
      has fewer than 256, or else it is refused, as it may also be once the connection is
      closed; a message refused gives its bytes back. */
  lemma CallGoesOn(s: State, k: nat)
    requires Inv(s) && k < |s.calls|
    ensures s.calls[k].admitted ==>
            && (Enabled(s, Send(k)) <==> |s.queue| < 256)
            && (Enabled(s, Refuse(k)) <==> s.closed || |s.queue| == 256)
            && (Enabled(s, Send(k)) || Enabled(s, Refuse(k)))
    ensures !s.calls[k].admitted ==> Enabled(s, GiveBack(k))
  {
    hide Sum, Messages, Held;
  }

  /** A run: each step possible when it comes. */
  predicate IsRun(s: State, steps: seq<Step>)
    decreases |steps|
  {
    steps == [] || (Enabled(s, steps[0]) && IsRun(Next(s, steps[0]), steps[1..]))
  }

  function After(s: State, steps: seq<Step>): State
    requires IsRun(s, steps)
    decreases |steps|
  {
    if steps == [] then s else After(Next(s, steps[0]), steps[1..])
  }

  /** From an empty queue, every interleaving. */
  lemma {:induction false} RunKeeps(s: State, steps: seq<Step>)
    requires Inv(s) && IsRun(s, steps)
    ensures Inv(After(s, steps))
    decreases |steps|
  {
    hide Next, Inv, Enabled;
    if steps == [] {
    } else {
      StepKeeps(s, steps[0]);
      RunKeeps(Next(s, steps[0]), steps[1..]);
    }
  }

  /** Once every enqueue has returned and the writer is idle, the counter is the channel. */
  lemma Quiescent(s: State)
    requires Inv(s) && s.calls == [] && s.writing == []
    ensures s.pending == Bytes(s.queue)
  {
    assert Held(s) == s.queue;
  }

  /** Every interleaving from an empty queue: the counter and the budget are right all the
      time, what is written is what was accepted, in order, and whenever no call is under
      way the counter is exactly the bytes in the channel. */
  lemma EveryRun(steps: seq<Step>)
    requires IsRun(EMPTY, steps)
    ensures var s := After(EMPTY, steps);
            && Inv(s) && s.written <= s.accepted
            && (s.calls == [] && s.writing == [] ==> s.pending == Bytes(s.queue))
  {
    RunKeeps(EMPTY, steps);
    var s := After(EMPTY, steps);
    if s.calls == [] && s.writing == [] {
      Quiescent(s);
    }
  }
}
