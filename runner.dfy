/** Runner (heartwave/runner.py): a processing stage that holds its output
    queue as a separate object and, when stopped, hands the consumer a new,
    empty one.  Each method is proved to change the state as the matching
    function of module Stages says. */
module StageRunner {
  import opened Common
  import opened Stages

  /** The asyncio.Queue a Runner reports its results on. */
  class OutQueue<T> {
    var items: seq<Item<T>>

    constructor()
      ensures items == []
    {
      items := [];
    }
  }

  class Runner<T> {
    var inQ: seq<Item<T>>
    var outQ: OutQueue<T>
    var running: bool
    /** Whether a worker thread is held (self._thread is not None). */
    var thread: bool
    /** How many worker threads have been started. */
    var starts: nat

    function State(): StageState<T>
      reads this, outQ
    {
      StageState(inQ, outQ.items, running, thread, starts)
    }

    constructor()
      ensures State() == Initial()
      ensures fresh(outQ)
    {
      inQ := [];
      outQ := new OutQueue();
      running := false;
      thread := false;
      starts := 0;
    }

    method Start()
      modifies this
      ensures outQ == old(outQ)
      ensures State() == Started(old(State()))
    {
      if running {
        return;
      }
      running := true;
      thread := true;
      starts := starts + 1;
    }

    /** stop: the Stop marker goes on the input queue and on the output queue
        in use, which is then abandoned for a new, empty one.  A consumer
        still awaiting the abandoned queue finds the marker after the results
        it held. */
    method Stop()
      modifies this, outQ
      ensures State() == Stopped(old(State()))
      ensures old(running) ==> fresh(outQ) && old(outQ).items == old(outQ.items) + [StopItem]
      ensures !old(running) ==> outQ == old(outQ) && outQ.items == old(outQ.items)
    {
      if !running {
        return;
      }
      running := false;
      inQ := inQ + [StopItem];
      outQ.items := outQ.items + [StopItem];
      thread := false;
      outQ := new OutQueue();
    }

    /** feed, also `+=`: returns the stage itself. */
    method Feed(x: T) returns (r: Runner<T>)
      modifies this
      ensures r == this && outQ == old(outQ)
      ensures State() == Fed(old(State()), x)
    {
      inQ := inQ + [Data(x)];
      r := this;
    }

    method Output(x: Item<T>)
      modifies outQ
      ensures State() == WithOutput(old(State()), x)
    {
      outQ.items := outQ.items + [x];
    }

    method HasOutput() returns (b: bool)
      ensures b <==> Stages.HasOutput(State())
    {
      b := |outQ.items| > 0;
    }

    /** len(runner). */
    method Length() returns (n: nat)
      ensures n == Len(State())
    {
      n := |outQ.items|;
    }

    method GetInput() returns (item: Option<Item<T>>)
      modifies this
      ensures outQ == old(outQ)
      ensures Taken(item, State()) == InputTaken(old(State()))
    {
      if |inQ| == 0 {
        return None;
      }
      item := Some(inQ[0]);
      inQ := inQ[1..];
    }

    method GetLatestInput() returns (item: Option<Item<T>>)
      modifies this
      ensures outQ == old(outQ)
      ensures Taken(item, State()) == LatestTaken(old(State()))
    {
      if |inQ| == 0 {
        return None;
      }
      var data := inQ[0];
      inQ := inQ[1..];
      while |inQ| > 0
        invariant outQ == old(outQ)
        invariant State() == old(State()).(inQ := inQ)
        invariant DrainFrom(data, inQ) == DrainFrom(old(inQ)[0], old(inQ)[1..])
        decreases |inQ|
      {
        data := inQ[0];
        inQ := inQ[1..];
      }
      item := Some(data);
    }

    /** __next__: None stands for StopIteration. */
    method Next() returns (item: Option<Item<T>>)
      modifies outQ
      ensures Taken(item, State()) == NextTaken(old(State()))
    {
      if |outQ.items| == 0 {
        return None;
      }
      item := Some(outQ.items[0]);
      outQ.items := outQ.items[1..];
    }

    /** __anext__, one step: Waiting stands for an await that does not
        complete until output arrives. */
    method AsyncNext() returns (step: AsyncStep<T>)
      modifies outQ
      ensures (step, State()) == AsyncNextTaken(old(State()))
    {
      if !running {
        return Ended;
      }
      if |outQ.items| == 0 {
        return Waiting;
      }
      var result := outQ.items[0];
      outQ.items := outQ.items[1..];
      if result.Data? {
        return Yielded(result.value);
      }
      step := Ended;
    }
  }
}
