/** RunQueue (heartwave/runqueue.py): a processing stage that is itself the
    asynchronous output queue its consumer iterates over.  Each method is
    proved to change the state as the matching function of module Stages
    says. */
module StageQueue {
  import opened Common
  import opened Stages

  class RunQueue<T> {
    var inQ: seq<Item<T>>
    /** The stage's own contents as an asyncio.Queue: the output queue. */
    var items: seq<Item<T>>
    var running: bool
    /** Whether a worker thread is held (self._thread is not None). */
    var thread: bool
    /** How many worker threads have been started. */
    var starts: nat

    function State(): StageState<T>
      reads this
    {
      StageState(inQ, items, running, thread, starts)
    }

    constructor()
      ensures State() == Initial()
    {
      inQ := [];
      items := [];
      running := false;
      thread := false;
      starts := 0;
    }

    method Start()
      modifies this
      ensures State() == Started(old(State()))
    {
      if running {
        return;
      }
      running := true;
      thread := true;
      starts := starts + 1;
    }

    /** Empty the output queue, one get_nowait() at a time. */
    method Clear()
      modifies this
      ensures State() == old(State()).(outQ := [])
    {
      while |items| > 0
        invariant State() == old(State()).(outQ := items)
        decreases |items|
      {
        items := items[1..];
      }
    }

    method Stop()
      modifies this
      ensures State() == Stopped(old(State()))
    {
      if !running {
        return;
      }
      running := false;
      inQ := inQ + [StopItem];
      items := items + [StopItem];
      thread := false;
      Clear();
    }

    /** feed, also `+=`: returns the stage itself. */
    method Feed(x: T) returns (r: RunQueue<T>)
      modifies this
      ensures r == this
      ensures State() == Fed(old(State()), x)
    {
      inQ := inQ + [Data(x)];
      r := this;
    }

    method Output(x: Item<T>)
      modifies this
      ensures State() == WithOutput(old(State()), x)
    {
      items := items + [x];
    }

    method GetInput() returns (item: Option<Item<T>>)
      modifies this
      ensures Taken(item, State()) == InputTaken(old(State()))
    {
      if |inQ| == 0 {
        return None;
      }
      item := Some(inQ[0]);
      inQ := inQ[1..];
    }

    method GetLatestInput() returns (item: Option<Item<T>>)
      modifies this
      ensures Taken(item, State()) == LatestTaken(old(State()))
    {
      if |inQ| == 0 {
        return None;
      }
      var data := inQ[0];
      inQ := inQ[1..];
      while |inQ| > 0
        invariant State() == old(State()).(inQ := inQ)
        invariant DrainFrom(data, inQ) == DrainFrom(old(inQ)[0], old(inQ)[1..])
        decreases |inQ|
      {
        data := inQ[0];
        inQ := inQ[1..];
      }
      item := Some(data);
    }

    /** __next__: None stands for StopIteration. */
    method Next() returns (item: Option<Item<T>>)
      modifies this
      ensures Taken(item, State()) == NextTaken(old(State()))
    {
      if |items| == 0 {
        return None;
      }
      item := Some(items[0]);
      items := items[1..];
    }

    /** __anext__, one step: Waiting stands for an await that does not
        complete until output arrives. */
    method AsyncNext() returns (step: AsyncStep<T>)
      modifies this
      ensures (step, State()) == AsyncNextTaken(old(State()))
    {
      if !running {
        return Ended;
      }
      if |items| == 0 {
        return Waiting;
      }
      var result := items[0];
      items := items[1..];
      if result.Data? {
        return Yielded(result.value);
      }
      step := Ended;
    }
  }
}
