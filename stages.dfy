/** The life cycle shared by the two processing-stage classes, RunQueue and
    Runner: an input queue fed by the consumer and read by a worker, an output
    queue filled by the worker and read by the consumer, a running flag, and
    the worker thread that start launches and stop joins.  The thread itself
    is not modelled; what remains is a sequential state machine over the two
    queues. */
module Stages {
  import opened Common

  /** An element of a queue: a value, or the class's Stop marker object. */
  datatype Item<T> = Data(value: T) | StopItem

  /** The items a sequence of values becomes when each is put on a queue. */
  function Wrapped<T>(xs: seq<T>): (q: seq<Item<T>>)
    ensures |q| == |xs|
    ensures forall i :: 0 <= i < |xs| ==> q[i] == Data(xs[i])
  {
    seq(|xs|, i requires 0 <= i < |xs| => Data(xs[i]))
  }

  // ---------------------------------------------------------------------
  // The input queue (a queue.Queue)

  /** What one get() returns and what it leaves of the queue.  A get() on an
      empty queue blocks until another thread puts something; `item` is None
      in that case and the queue is left as it was. */
  datatype Got<T> = Got(item: Option<Item<T>>, rest: seq<Item<T>>)

  function Get<T>(q: seq<Item<T>>): (g: Got<T>)
    ensures q == [] ==> g == Got(None, [])
    ensures q != [] ==> g.item == Some(q[0]) && [q[0]] + g.rest == q
  {
    if q == [] then Got(None, q) else Got(Some(q[0]), q[1..])
  }

  /** The items returned by n get() calls in a row, and what is left. */
  function GetMany<T>(q: seq<Item<T>>, n: nat): (r: (seq<Item<T>>, seq<Item<T>>))
    requires n <= |q|
    ensures |r.0| == n
  {
    if n == 0 then ([], q)
    else
      var g := Get(q);
      var more := GetMany(g.rest, n - 1);
      ([g.item.value] + more.0, more.1)
  }

  /** The input queue is first in, first out: n gets return the first n
      items in the order they were put, and leave the others. */
  lemma {:induction false} GetManyInOrder<T>(q: seq<Item<T>>, n: nat)
    requires n <= |q|
    ensures GetMany(q, n) == (q[..n], q[n..])
  {
    if n > 0 {
      GetManyInOrder(q[1..], n - 1);
      assert q[1..][..n - 1] == q[1..n] && q[1..][n - 1..] == q[n..];
      assert [q[0]] + q[1..n] == q[..n];
    }
  }

  /** Putting to the back and getting from the front commute on a queue that
      is not empty, and a get right after a put on an empty queue returns
      what was put. */
  lemma PutGetCommute<T>(q: seq<Item<T>>, x: Item<T>)
    ensures q == [] ==> Get(q + [x]) == Got(Some(x), [])
    ensures q != [] ==> Get(q + [x]) == Got(Get(q).item, Get(q).rest + [x])
  {
    if q != [] {
      assert (q + [x])[1..] == q[1..] + [x];
    }
  }

  /** The draining loop of getLatestInput: keep the last item taken and take
      the next one while the queue is not empty. */
  function DrainFrom<T>(data: Item<T>, q: seq<Item<T>>): Item<T>
    decreases |q|
  {
    if q == [] then data else DrainFrom(q[0], q[1..])
  }

  /** getLatestInput: one blocking get(), then get_nowait() until the queue
      is empty, keeping the last item taken.  On an empty queue the first
      get() blocks: `item` is None and the queue is left as it was. */
  function Latest<T>(q: seq<Item<T>>): (g: Got<T>)
    ensures g.rest == []
    ensures q == [] <==> g.item == None
  {
    if q == [] then Got(None, []) else Got(Some(DrainFrom(q[0], q[1..])), [])
  }

  lemma {:induction false} DrainFromLast<T>(data: Item<T>, q: seq<Item<T>>)
    ensures DrainFrom(data, q) == if q == [] then data else q[|q| - 1]
    decreases |q|
  {
    if q != [] {
      DrainFromLast(q[0], q[1..]);
      if |q| > 1 {
        assert q[1..][|q| - 2] == q[|q| - 1];
      }
    }
  }

  /** getLatestInput drops the earlier input: it returns the most recent item
      and leaves the queue empty, which is what getting every queued item in
      turn would leave, the last item got being the one returned. */
  lemma LatestIsLastOfAll<T>(q: seq<Item<T>>)
    requires q != []
    ensures Latest(q).item == Some(q[|q| - 1])
    ensures Latest(q).item == Some(GetMany(q, |q|).0[|q| - 1])
    ensures Latest(q).rest == GetMany(q, |q|).1
  {
    DrainFromLast(q[0], q[1..]);
    if |q| > 1 {
      assert q[1..][|q| - 2] == q[|q| - 1];
    }
    GetManyInOrder(q, |q|);
    assert q[..|q|] == q;
  }

  // ---------------------------------------------------------------------
  // The state of a stage

  /** The state a stage's methods change: the input queue, the output queue,
      the running flag, whether a worker thread is held, and how many worker
      threads have been started so far. */
  datatype StageState<T> = StageState(
    inQ: seq<Item<T>>,
    outQ: seq<Item<T>>,
    running: bool,
    thread: bool,
    starts: nat)

  /** What every reachable state satisfies: a worker thread is held exactly
      while the stage runs. */
  predicate Good<T>(s: StageState<T>)
  {
    s.thread == s.running
  }

  /** A new stage: both queues empty, not running, no worker. */
  function Initial<T>(): (s: StageState<T>)
    ensures Good(s) && s.inQ == [] && s.outQ == [] && !s.running && s.starts == 0
  {
    StageState([], [], false, false, 0)
  }

  /** start: a no-op while running; otherwise set running and launch one
      worker thread. */
  function Started<T>(s: StageState<T>): (r: StageState<T>)
    ensures r.running && r.inQ == s.inQ && r.outQ == s.outQ
  {
    if s.running then s else s.(running := true, thread := true, starts := s.starts + 1)
  }

  /** stop: a no-op while not running; otherwise clear running, put the Stop
      marker on the input queue for the worker, join the worker, and leave
      the consumer an empty output queue. */
  function Stopped<T>(s: StageState<T>): (r: StageState<T>)
    ensures !r.running
    ensures s.running ==> r.inQ == s.inQ + [StopItem] && r.outQ == [] && !r.thread
    ensures !s.running ==> r == s
  {
    if !s.running then s
    else s.(running := false, thread := false, inQ := s.inQ + [StopItem], outQ := [])
  }

  /** feed: the value goes to the back of the input queue. */
  function Fed<T>(s: StageState<T>, x: T): (r: StageState<T>)
    ensures |r.inQ| == |s.inQ| + 1 && r.inQ[..|s.inQ|] == s.inQ && r.inQ[|s.inQ|..] == [Data(x)]
  {
    s.(inQ := s.inQ + [Data(x)])
  }

  /** Feeding a list of values one after the other. */
  function FedAll<T>(s: StageState<T>, xs: seq<T>): (r: StageState<T>)
    ensures |r.inQ| == |s.inQ| + |xs|
  {
    if xs == [] then s else Fed(FedAll(s, xs[..|xs| - 1]), xs[|xs| - 1])
  }

  /** output: a result, or the Stop marker a worker sends when its input
      ends, goes to the back of the output queue. */
  function WithOutput<T>(s: StageState<T>, x: Item<T>): (r: StageState<T>)
    ensures |r.outQ| == |s.outQ| + 1 && r.outQ[..|s.outQ|] == s.outQ && r.outQ[|s.outQ|..] == [x]
  {
    s.(outQ := s.outQ + [x])
  }

  /** An item taken by an operation, and the state it leaves. */
  datatype Taken<T> = Taken(item: Option<Item<T>>, after: StageState<T>)

  /** getInput: the worker takes the front of the input queue. */
  function InputTaken<T>(s: StageState<T>): Taken<T>
  {
    var g := Get(s.inQ);
    Taken(g.item, s.(inQ := g.rest))
  }

  /** getLatestInput: the worker takes the most recent input and drops the
      rest. */
  function LatestTaken<T>(s: StageState<T>): Taken<T>
  {
    var g := Latest(s.inQ);
    Taken(g.item, s.(inQ := g.rest))
  }

  /** __next__: the front of the output queue when there is one; otherwise
      StopIteration (None) and nothing changes. */
  function NextTaken<T>(s: StageState<T>): (t: Taken<T>)
    ensures t.item == None <==> s.outQ == []
  {
    var g := Get(s.outQ);
    Taken(g.item, s.(outQ := g.rest))
  }

  /** What one step of asynchronous iteration does: yield a result, end the
      iteration (StopAsyncIteration), or wait for the output queue to fill. */
  datatype AsyncStep<T> = Yielded(value: T) | Ended | Waiting

  /** __anext__: not running ends the iteration at once; running, it awaits
      the front of the output queue and ends the iteration when that is the
      Stop marker. */
  function AsyncNextTaken<T>(s: StageState<T>): (r: (AsyncStep<T>, StageState<T>))
  {
    if !s.running then (Ended, s)
    else if s.outQ == [] then (Waiting, s)
    else
      var rest := s.outQ[1..];
      match s.outQ[0]
      case Data(v) => (Yielded(v), s.(outQ := rest))
      case StopItem => (Ended, s.(outQ := rest))
  }

  /** len(stage): the number of results waiting in the output queue. */
  function Len<T>(s: StageState<T>): nat
  {
    |s.outQ|
  }

  /** hasOutput: whether a result is waiting. */
  predicate HasOutput<T>(s: StageState<T>)
  {
    |s.outQ| > 0
  }

  // ---------------------------------------------------------------------
  // Properties of the life cycle

  /** A second start does nothing, and a start launches a worker only when
      the stage is not already running. */
  lemma StartIdempotent<T>(s: StageState<T>)
    ensures Started(Started(s)) == Started(s)
    ensures Started(s).starts == if s.running then s.starts else s.starts + 1
    ensures s.running ==> Started(s) == s
  {
  }

  /** A second stop does nothing. */
  lemma StopIdempotent<T>(s: StageState<T>)
    ensures Stopped(Stopped(s)) == Stopped(s)
  {
  }

  /** Every operation keeps the state good: the worker is held exactly
      while running. */
  lemma GoodPreserved<T>(s: StageState<T>, op: Op<T>)
    requires Good(s)
    ensures Good(Apply(s, op))
  {
  }

  /** Every state reached from a new stage is good. */
  lemma {:induction false} RunGood<T>(ops: seq<Op<T>>)
    ensures Good(Run(Initial(), ops))
  {
    if ops != [] {
      RunGood(ops[..|ops| - 1]);
      GoodPreserved(Run(Initial(), ops[..|ops| - 1]), ops[|ops| - 1]);
    }
  }

  /** Feeding appends in order and changes nothing but the input queue. */
  lemma {:induction false} FedAllAppends<T>(s: StageState<T>, xs: seq<T>)
    ensures FedAll(s, xs) == s.(inQ := s.inQ + Wrapped(xs))
  {
    if xs != [] {
      var ys := xs[..|xs| - 1];
      FedAllAppends(s, ys);
      assert Wrapped(xs) == Wrapped(ys) + [Data(xs[|xs| - 1])];
    }
  }

  /** The worker receives the fed values in the order they were fed: after
      feeding xs to a stage whose input queue is empty, |xs| getInput calls
      return exactly xs and leave the queue empty. */
  lemma FeedFifo<T>(s: StageState<T>, xs: seq<T>)
    requires s.inQ == []
    ensures GetMany(FedAll(s, xs).inQ, |xs|) == (Wrapped(xs), [])
  {
    var q := Wrapped(xs);
    assert FedAll(s, xs).inQ == q by {
      FedAllAppends(s, xs);
      assert s.inQ + q == q;
    }
    GetManyAll(q);
  }

  /** Getting every item of a queue returns all of it, in order. */
  lemma GetManyAll<T>(q: seq<Item<T>>)
    ensures GetMany(q, |q|) == (q, [])
  {
    GetManyInOrder(q, |q|);
    assert q[..|q|] == q && q[|q|..] == [];
  }

  /** After a burst of input, getLatestInput hands the worker only the most
      recently fed value and discards the others. */
  lemma LatestAfterFeeds<T>(s: StageState<T>, xs: seq<T>)
    requires xs != []
    ensures LatestTaken(FedAll(s, xs)).item == Some(Data(xs[|xs| - 1]))
    ensures LatestTaken(FedAll(s, xs)).after == s.(inQ := [])
  {
    FedAllAppends(s, xs);
    var q := s.inQ + Wrapped(xs);
    LatestIsLastOfAll(q);
    assert q[|q| - 1] == Data(xs[|xs| - 1]);
  }

  /** A stop is seen by the worker: the inputs still queued come first, then
      the Stop marker, which is also what getLatestInput returns. */
  lemma StopReachesWorker<T>(s: StageState<T>)
    requires s.running
    ensures GetMany(Stopped(s).inQ, |s.inQ| + 1) == (s.inQ + [StopItem], [])
    ensures LatestTaken(Stopped(s)).item == Some(StopItem)
  {
    var q := s.inQ + [StopItem];
    GetManyAll(q);
    LatestIsLastOfAll(q);
  }

  /** Results are handed to the consumer first in, first out: __next__ after
      output on an empty output queue returns that result and restores the
      state, and otherwise output and __next__ commute. */
  lemma OutputNext<T>(s: StageState<T>, x: Item<T>)
    ensures s.outQ == [] ==> NextTaken(WithOutput(s, x)) == Taken(Some(x), s)
    ensures s.outQ != [] ==>
      NextTaken(WithOutput(s, x)) == Taken(NextTaken(s).item, WithOutput(NextTaken(s).after, x))
  {
    PutGetCommute(s.outQ, x);
  }

  /** __anext__ never hands out the Stop marker: what it yields is the
      value at the front of the output queue.  A stage that is not running
      ends the iteration without consuming anything; a running stage with
      output takes the same item __next__ would, and yields it exactly when
      it is a result rather than the marker. */
  lemma AsyncNextNeverStop<T>(s: StageState<T>)
    ensures AsyncNextTaken(s).0.Yielded? ==>
      s.outQ != [] && s.outQ[0] == Data(AsyncNextTaken(s).0.value)
    ensures !s.running ==> AsyncNextTaken(s) == (Ended, s)
    ensures s.running && s.outQ != [] ==>
      && AsyncNextTaken(s).1 == NextTaken(s).after
      && (AsyncNextTaken(s).0.Yielded? <==> s.outQ[0].Data?)
      && (AsyncNextTaken(s).0.Ended? <==> s.outQ[0].StopItem?)
  {
  }

  /** __next__ hands out the front of the output queue whatever it is, the
      Stop marker included; after a stop there is nothing to hand out. */
  lemma NextAfterStop<T>(s: StageState<T>)
    ensures NextTaken(s).item.Some? ==> NextTaken(s).item == Some(s.outQ[0])
    ensures NextTaken(Stopped(s)).item == None <==> s.running || s.outQ == []
  {
  }

  // ---------------------------------------------------------------------
  // Runs of operations

  /** A call of one of a stage's operations. */
  datatype Op<T> =
    | StartOp
    | StopOp
    | FeedOp(x: T)
    | OutputOp(item: Item<T>)
    | GetInputOp
    | GetLatestInputOp
    | NextOp
    | AsyncNextOp

  /** The state a call leaves. */
  function Apply<T>(s: StageState<T>, op: Op<T>): StageState<T>
  {
    match op
    case StartOp => Started(s)
    case StopOp => Stopped(s)
    case FeedOp(x) => Fed(s, x)
    case OutputOp(item) => WithOutput(s, item)
    case GetInputOp => InputTaken(s).after
    case GetLatestInputOp => LatestTaken(s).after
    case NextOp => NextTaken(s).after
    case AsyncNextOp => AsyncNextTaken(s).1
  }

  /** The state a sequence of calls leaves, applied in order. */
  function Run<T>(s: StageState<T>, ops: seq<Op<T>>): StageState<T>
  {
    if ops == [] then s else Apply(Run(s, ops[..|ops| - 1]), ops[|ops| - 1])
  }

  /** The number of Stop markers in a queue. */
  function Markers<T>(q: seq<Item<T>>): nat
  {
    if q == [] then 0 else (if q[0].StopItem? then 1 else 0) + Markers(q[1..])
  }

  /** The number of calls that output the Stop marker. */
  function MarkerOutputs<T>(ops: seq<Op<T>>): nat
  {
    if ops == [] then 0
    else MarkerOutputs(ops[..|ops| - 1]) + (if ops[|ops| - 1] == OutputOp(StopItem) then 1 else 0)
  }

  lemma {:induction false} MarkersAppend<T>(q: seq<Item<T>>, x: Item<T>)
    ensures Markers(q + [x]) == Markers(q) + (if x.StopItem? then 1 else 0)
    decreases |q|
  {
    if q != [] {
      assert (q + [x])[1..] == q[1..] + [x];
      MarkersAppend(q[1..], x);
    }
  }

  /** Only output adds a marker to the output queue, and only when it is
      output(Stop): stop itself leaves the consumer an empty queue. */
  lemma ApplyMarkers<T>(s: StageState<T>, op: Op<T>)
    ensures Markers(Apply(s, op).outQ) <= Markers(s.outQ) + (if op == OutputOp(StopItem) then 1 else 0)
  {
    match op
    case OutputOp(item) => MarkersAppend(s.outQ, item);
    case _ =>
  }

  /** Every marker in the output queue of a new stage's run was put there
      by a call of output(Stop). */
  lemma {:induction false} MarkersFromOutput<T>(ops: seq<Op<T>>)
    ensures Markers(Run(Initial(), ops).outQ) <= MarkerOutputs(ops)
  {
    if ops != [] {
      var init := ops[..|ops| - 1];
      MarkersFromOutput(init);
      ApplyMarkers(Run(Initial(), init), ops[|ops| - 1]);
    }
  }

  /** The consumer sees the Stop marker only after a worker output it:
      __next__ returns the marker, or a running stage's __anext__ ends the
      iteration, only in a run that called output(Stop). */
  lemma StopSeenOnlyAfterOutput<T>(ops: seq<Op<T>>)
    ensures NextTaken(Run(Initial(), ops)).item == Some(StopItem) ==> MarkerOutputs(ops) > 0
    ensures Run(Initial(), ops).running && AsyncNextTaken(Run(Initial(), ops)).0.Ended? ==>
      MarkerOutputs(ops) > 0
  {
    MarkersFromOutput(ops);
  }

  /** n steps of asynchronous iteration: what each step did, and the state
      left. */
  function AsyncSteps<T>(s: StageState<T>, n: nat): (seq<AsyncStep<T>>, StageState<T>)
    decreases n
  {
    if n == 0 then ([], s)
    else
      var (step, s') := AsyncNextTaken(s);
      var more := AsyncSteps(s', n - 1);
      ([step] + more.0, more.1)
  }

  /** The steps that yield each of a sequence of results in turn. */
  function Yields<T>(xs: seq<T>): (ys: seq<AsyncStep<T>>)
    ensures |ys| == |xs|
  {
    seq(|xs|, i requires 0 <= i < |xs| => Yielded(xs[i]))
  }

  /** A worker that ends with output(Stop) ends the consumer's `async for`:
      the results still waiting are yielded in order, then the iteration
      ends and the output queue is empty. */
  lemma {:induction false} AsyncEndsAfterStopOutput<T>(s: StageState<T>, xs: seq<T>)
    requires s.running && s.outQ == Wrapped(xs)
    ensures AsyncSteps(WithOutput(s, StopItem), |xs| + 1) == (Yields(xs) + [Ended], s.(outQ := []))
    decreases |xs|
  {
    var s1 := WithOutput(s, StopItem);
    if xs == [] {
      assert AsyncNextTaken(s1) == (Ended, s.(outQ := []));
      var e := s.(outQ := []);
      assert AsyncSteps(e, 0) == ([], e);
      assert AsyncSteps(s1, 1) == ([Ended] + AsyncSteps(e, 0).0, AsyncSteps(e, 0).1);
      assert Yields(xs) + [Ended] == [Ended] + [];
      assert |xs| + 1 == 1;
    } else {
      var s' := s.(outQ := Wrapped(xs[1..]));
      assert s1.outQ[1..] == Wrapped(xs[1..]) + [StopItem];
      assert AsyncNextTaken(s1) == (Yielded(xs[0]), WithOutput(s', StopItem));
      AsyncEndsAfterStopOutput(s', xs[1..]);
      assert [Yielded(xs[0])] + (Yields(xs[1..]) + [Ended]) == Yields(xs) + [Ended];
      assert s'.(outQ := []) == s.(outQ := []);
      assert AsyncSteps(s1, |xs| + 1) ==
        ([Yielded(xs[0])] + AsyncSteps(WithOutput(s', StopItem), |xs|).0, AsyncSteps(WithOutput(s', StopItem), |xs|).1);
    }
  }

  /** hasOutput() holds exactly when len() is positive, exactly when
      __next__ would return a result rather than raise StopIteration. */
  lemma HasOutputIffLen<T>(s: StageState<T>)
    ensures HasOutput(s) <==> Len(s) > 0
    ensures HasOutput(s) <==> NextTaken(s).item.Some?
  {
  }
}
