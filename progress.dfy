/**
 * Progress reporters: the multiplexer that fans every call out to its children,
 * the delay reporter that throttles updates to its one child, and the default
 * reporter that writes a progress line at most every 500 ms in the active mode.
 * The clock is the parameter `now`, in milliseconds. Calls forwarded to child
 * reporters are recorded in an outbox, and the default reporter's output lines
 * in a report list.
 */
module Progress {
  import opened Wrappers
  import opened Components

  datatype Mode = Samples | Time

  /** A reporter call as a value, so that forwarding can be recorded. */
  datatype Call = StartCall(mode: Mode, total: int, totalTime: real) | UpdateCall(processed: int) | UpdateTimeCall(elapsed: real) | EndCall

  /** A call delivered to the child at index `child`. */
  datatype Delivery = Delivery(child: nat, call: Call)

  /** One configuration entry of the multiplexer: a reporter key and whether its construct(prop) succeeds. */
  datatype Entry = Entry(key: string, constructs: bool)

  /** comp::create<ProgressContext>(key, "", prop) returns an instance for this entry. */
  predicate Creatable(funcMap: map<string, Factory>, e: Entry) {
    e.key in funcMap && e.constructs
  }

  /** One delivery of `c` to each of the children 0 .. n-1, in order. */
  function Fanout(n: nat, c: Call): (ds: seq<Delivery>)
    ensures |ds| == n
    ensures forall i :: 0 <= i < n ==> ds[i] == Delivery(i, c)
  {
    if n == 0 then [] else Fanout(n - 1, c) + [Delivery(n - 1, c)]
  }

  class Mux {
    var children: seq<Component>
    var outbox: seq<Delivery>

    constructor ()
      ensures children == [] && outbox == []
    {
      children := [];
      outbox := [];
    }

    /** construct: create one child per entry, in order; false at the first entry that cannot be created. */
    method Construct(ctx: ComponentContext, entries: seq<Entry>) returns (ok: bool, ghost rejected: seq<Release>)
      modifies this`children, ctx`released
      ensures ok <==> forall k :: 0 <= k < |entries| ==> Creatable(ctx.funcMap, entries[k])
      ensures ok ==> |children| == |old(children)| + |entries|
      ensures !ok ==> exists f :: (0 <= f < |entries| && !Creatable(ctx.funcMap, entries[f]) &&
        (forall k :: 0 <= k < f ==> Creatable(ctx.funcMap, entries[k])) && |children| == |old(children)| + f &&
        RejectReleases(ctx.funcMap, entries[f].key, entries[f].constructs, rejected))
      ensures |old(children)| <= |children| <= |old(children)| + |entries|
      ensures children[..|old(children)|] == old(children)
      ensures forall k :: |old(children)| <= k < |children| ==>
        fresh(children[k]) && children[k].key == entries[k - |old(children)|].key && children[k].loc == ""
      ensures forall k :: |old(children)| <= k < |children| ==>
        entries[k - |old(children)|].key in ctx.funcMap &&
        children[k].createFunc == Fn(ctx.funcMap[entries[k - |old(children)|].key].create) &&
        children[k].releaseFunc == ctx.funcMap[entries[k - |old(children)|].key].release
      ensures ctx.released == old(ctx.released) + rejected
      ensures ok ==> rejected == []
      ensures forall r :: r in rejected ==> fresh(r.target)
    {
      rejected := [];
      var i := 0;
      while i < |entries|
        invariant 0 <= i <= |entries|
        invariant forall k :: 0 <= k < i ==> Creatable(ctx.funcMap, entries[k])
        invariant |children| == |old(children)| + i
        invariant children[..|old(children)|] == old(children)
        invariant forall k :: |old(children)| <= k < |children| ==>
          fresh(children[k]) && children[k].key == entries[k - |old(children)|].key && children[k].loc == ""
        invariant forall k :: |old(children)| <= k < |children| ==>
          entries[k - |old(children)|].key in ctx.funcMap &&
          children[k].createFunc == Fn(ctx.funcMap[entries[k - |old(children)|].key].create) &&
          children[k].releaseFunc == ctx.funcMap[entries[k - |old(children)|].key].release
        invariant ctx.released == old(ctx.released)
      {
        var e := entries[i];
        var p := ctx.CreateWithProp(e.key, "", e.constructs);
        if p == null {
          rejected := ctx.released[|old(ctx.released)|..];
          assert ctx.released == old(ctx.released) + rejected;
          assert !Creatable(ctx.funcMap, entries[i]);
          return false, rejected;
        }
        children := children + [p];
        i := i + 1;
      }
      return true, rejected;
    }

    /** Deliver `c` to every child, in order. */
    method Broadcast(c: Call)
      modifies this`outbox
      ensures outbox == old(outbox) + Fanout(|children|, c)
    {
      var i := 0;
      while i < |children|
        invariant 0 <= i <= |children|
        invariant outbox == old(outbox) + Fanout(i, c)
      {
        outbox := outbox + [Delivery(i, c)];
        i := i + 1;
      }
    }

    method Start(mode: Mode, total: int, totalTime: real)
      modifies this`outbox
      ensures outbox == old(outbox) + Fanout(|children|, StartCall(mode, total, totalTime))
    {
      Broadcast(StartCall(mode, total, totalTime));
    }

    method Update(processed: int)
      modifies this`outbox
      ensures outbox == old(outbox) + Fanout(|children|, UpdateCall(processed))
    {
      Broadcast(UpdateCall(processed));
    }

    method UpdateTime(elapsed: real)
      modifies this`outbox
      ensures outbox == old(outbox) + Fanout(|children|, UpdateTimeCall(elapsed))
    {
      Broadcast(UpdateTimeCall(elapsed));
    }

    method End()
      modifies this`outbox
      ensures outbox == old(outbox) + Fanout(|children|, EndCall)
    {
      Broadcast(EndCall);
    }
  }

  // ----------------------------------------------------------------------------
  // Throttling

  /** The last-update time after an event at `now`: moved to `now` iff more than `delay` ms have passed. */
  function DelayStep(last: int, delay: int, now: int): (next: int)
    ensures next == now <==> now - last > delay || now == last
    ensures next != last ==> now - last > delay
  {
    if now - last > delay then now else last
  }

  /** The times, among `times`, at which an update gets through a throttle last reset at `last`. */
  function DelayTrace(last: int, delay: int, times: seq<int>): seq<int>
    decreases |times|
  {
    if times == [] then []
    else (if times[0] - last > delay then [times[0]] else []) + DelayTrace(DelayStep(last, delay, times[0]), delay, times[1..])
  }

  /**
   * Updates that get through the throttle are more than `delay` ms after the
   * last reset and after each other, and each is one of the event times.
   */
  lemma {:induction false} DelayTraceSpaced(last: int, delay: int, times: seq<int>)
    ensures var fwd := DelayTrace(last, delay, times);
      (|fwd| > 0 ==> fwd[0] - last > delay) &&
      (forall i :: 0 <= i < |fwd| - 1 ==> fwd[i + 1] - fwd[i] > delay) &&
      (forall t :: t in fwd ==> t in times)
    decreases |times|
  {
    if times != [] {
      var next := DelayStep(last, delay, times[0]);
      DelayTraceSpaced(next, delay, times[1..]);
      var rest := DelayTrace(next, delay, times[1..]);
      if times[0] - last > delay {
        assert DelayTrace(last, delay, times) == [times[0]] + rest;
        assert next == times[0];
      } else {
        assert DelayTrace(last, delay, times) == rest;
        assert next == last;
      }
    }
  }

  class Delay {
    var delay: int
    /** The underlying reporter; null when its creation failed. */
    var inner: Component?
    var start: int
    var lastUpdated: int
    /** Calls forwarded to the underlying reporter, oldest first. */
    var forwarded: seq<Call>

    constructor ()
      ensures inner == null && forwarded == []
    {
      delay := 0;
      inner := null;
      start := 0;
      lastUpdated := 0;
      forwarded := [];
    }

    /**
     * construct as the source writes it: it reports success whether or not the
     * underlying reporter could be created.
     */
    method ConstructAsWritten(ctx: ComponentContext, delayMs: int, inner: Entry) returns (ok: bool, ghost rejected: seq<Release>)
      modifies this`delay, this`inner, ctx`released
      ensures ok
      ensures delay == delayMs
      ensures this.inner == null <==> !Creatable(ctx.funcMap, inner)
      ensures this.inner != null ==> fresh(this.inner) && this.inner.key == inner.key
      ensures this.inner != null ==>
        this.inner.createFunc == Fn(ctx.funcMap[inner.key].create) && this.inner.releaseFunc == ctx.funcMap[inner.key].release
      ensures ctx.released == old(ctx.released) + rejected
      ensures RejectReleases(ctx.funcMap, inner.key, inner.constructs, rejected)
      ensures forall r :: r in rejected ==> fresh(r.target)
    {
      delay := delayMs;
      this.inner := ctx.CreateWithProp(inner.key, "", inner.constructs);
      rejected := ctx.released[|old(ctx.released)|..];
      assert ctx.released == old(ctx.released) + rejected;
      return true, rejected;
    }

    /** construct, corrected: it fails when the underlying reporter cannot be created. */
    method Construct(ctx: ComponentContext, delayMs: int, inner: Entry) returns (ok: bool, ghost rejected: seq<Release>)
      modifies this`delay, this`inner, ctx`released
      ensures ok <==> Creatable(ctx.funcMap, inner)
      ensures ok <==> this.inner != null
      ensures delay == delayMs
      ensures this.inner != null ==> fresh(this.inner) && this.inner.key == inner.key
      ensures this.inner != null ==>
        this.inner.createFunc == Fn(ctx.funcMap[inner.key].create) && this.inner.releaseFunc == ctx.funcMap[inner.key].release
      ensures ctx.released == old(ctx.released) + rejected
      ensures RejectReleases(ctx.funcMap, inner.key, inner.constructs, rejected)
      ensures forall r :: r in rejected ==> fresh(r.target)
    {
      delay := delayMs;
      this.inner := ctx.CreateWithProp(inner.key, "", inner.constructs);
      rejected := ctx.released[|old(ctx.released)|..];
      assert ctx.released == old(ctx.released) + rejected;
      return this.inner != null, rejected;
    }

    /** start: reset both clocks to now and always forward. */
    method Start(mode: Mode, total: int, totalTime: real, now: int)
      requires inner != null
      modifies this`start, this`lastUpdated, this`forwarded
      ensures start == now && lastUpdated == now
      ensures forwarded == old(forwarded) + [StartCall(mode, total, totalTime)]
    {
      start := now;
      lastUpdated := start;
      forwarded := forwarded + [StartCall(mode, total, totalTime)];
    }

    /** update: forwarded, and the clock reset to now, iff more than `delay` ms passed since the last reset. */
    method Update(processed: int, now: int)
      requires inner != null || now - lastUpdated <= delay
      modifies this`lastUpdated, this`forwarded
      ensures lastUpdated == DelayStep(old(lastUpdated), delay, now)
      ensures forwarded == old(forwarded) + (if now - old(lastUpdated) > delay then [UpdateCall(processed)] else [])
    {
      var elapsed := now - lastUpdated;
      if elapsed > delay {
        forwarded := forwarded + [UpdateCall(processed)];
        lastUpdated := now;
      }
    }

    /** updateTime: throttled like update. */
    method UpdateTime(elapsedTime: real, now: int)
      requires inner != null || now - lastUpdated <= delay
      modifies this`lastUpdated, this`forwarded
      ensures lastUpdated == DelayStep(old(lastUpdated), delay, now)
      ensures forwarded == old(forwarded) + (if now - old(lastUpdated) > delay then [UpdateTimeCall(elapsedTime)] else [])
    {
      var elapsed := now - lastUpdated;
      if elapsed > delay {
        forwarded := forwarded + [UpdateTimeCall(elapsedTime)];
        lastUpdated := now;
      }
    }

    /** end: always forwarded. */
    method End()
      requires inner != null
      modifies this`forwarded
      ensures forwarded == old(forwarded) + [EndCall]
    {
      forwarded := forwarded + [EndCall];
    }
  }

  /**
   * The delay reporter as written accepts a configuration whose underlying
   * reporter does not exist, and is then left without one: its start would
   * dereference a null reporter.
   */
  method DelayWithMissingInner(ctx: ComponentContext)
    requires "progress::missing" !in ctx.funcMap
    modifies ctx`released
  {
    var d := new Delay();
    var ok, _ := d.ConstructAsWritten(ctx, 100, Entry("progress::missing", true));
    assert ok && d.inner == null;
    var e := new Delay();
    var ok2, _ := e.Construct(ctx, 100, Entry("progress::missing", true));
    assert !ok2;
  }

  // ----------------------------------------------------------------------------
  // Default reporter

  /** Minimum time between two progress lines, in ms. */
  const ReportInterval: int := 500

  /** A line written by the default reporter (the numbers it formats). */
  datatype Report =
    | SamplesLine(processed: int, total: int, eta: Option<int>)
    | TimeLine(elapsed: real, totalTime: real, remaining: real)
    | Completed

  function Abs(x: int): int {
    if x < 0 then -x else x
  }

  /** Integer division truncating toward zero, as C++ divides. */
  function TruncDiv(a: int, b: int): (q: int)
    requires b != 0
    ensures a >= 0 ==> 0 <= a - q * b < Abs(b)
    ensures a <= 0 ==> -Abs(b) < a - q * b <= 0
  {
    if a >= 0 then (if b > 0 then a / b else -(a / -b))
    else (if b > 0 then -((-a) / b) else (-a) / (-b))
  }

  /**
   * The estimated remaining time in ms: none when nothing is processed yet,
   * else elapsed * (total - processed) / processed in integer arithmetic.
   */
  function Eta(elapsed: int, total: int, processed: int): (e: Option<int>)
    ensures e.None? <==> processed == 0
    ensures e.Some? ==> e.value == TruncDiv(elapsed * (total - processed), processed)
  {
    if processed == 0 then None else Some(TruncDiv(elapsed * (total - processed), processed))
  }

  /** For a run in progress, the estimate is the remaining work at the average rate so far, rounded down. */
  lemma EtaBounds(elapsed: int, total: int, processed: int)
    requires elapsed >= 0 && 0 < processed <= total
    ensures Eta(elapsed, total, processed).Some?
    ensures var q := Eta(elapsed, total, processed).value;
      0 <= q && q * processed <= elapsed * (total - processed) < (q + 1) * processed
    ensures processed == total ==> Eta(elapsed, total, processed) == Some(0)
  {
    var a := elapsed * (total - processed);
    assert a >= 0 by {
      assert total - processed >= 0;
    }
    var q := TruncDiv(a, processed);
    assert 0 <= a - q * processed < processed;
  }

  class Default {
    var mode: Mode
    var total: int
    var totalTime: real
    var start: int
    var lastUpdated: int
    /** Progress lines written, oldest first. */
    var reports: seq<Report>

    constructor ()
      ensures reports == []
    {
      mode := Samples;
      total := 0;
      totalTime := 0.0;
      start := 0;
      lastUpdated := 0;
      reports := [];
    }

    /** start: record the mode and totals, and reset both clocks to now. */
    method Start(mode: Mode, total: int, totalTime: real, now: int)
      modifies this`mode, this`total, this`totalTime, this`start, this`lastUpdated
      ensures this.mode == mode && this.total == total && this.totalTime == totalTime
      ensures start == now && lastUpdated == now
    {
      this.mode := mode;
      this.total := total;
      this.totalTime := totalTime;
      start := now;
      lastUpdated := start;
    }

    /** update: ignored outside Samples mode; otherwise a line with the ETA at most every 500 ms. */
    method Update(processed: int, now: int)
      modifies this`lastUpdated, this`reports
      ensures mode != Samples ==> lastUpdated == old(lastUpdated) && reports == old(reports)
      ensures mode == Samples ==> lastUpdated == DelayStep(old(lastUpdated), ReportInterval, now)
      ensures mode == Samples ==> (reports == old(reports) +
        (if now - old(lastUpdated) > ReportInterval then [SamplesLine(processed, total, Eta(now - start, total, processed))] else []))
    {
      if mode != Samples {
        return;
      }
      var elapsedFromLastUpdate := now - lastUpdated;
      if elapsedFromLastUpdate > ReportInterval {
        var eta := if processed == 0 then None else Some(TruncDiv((now - start) * (total - processed), processed));
        reports := reports + [SamplesLine(processed, total, eta)];
        lastUpdated := now;
      }
    }

    /** updateTime: ignored outside Time mode; otherwise a line with the remaining time at most every 500 ms. */
    method UpdateTime(elapsed: real, now: int)
      modifies this`lastUpdated, this`reports
      ensures mode != Time ==> lastUpdated == old(lastUpdated) && reports == old(reports)
      ensures mode == Time ==> lastUpdated == DelayStep(old(lastUpdated), ReportInterval, now)
      ensures mode == Time ==> (reports == old(reports) +
        (if now - old(lastUpdated) > ReportInterval then [TimeLine(elapsed, totalTime, totalTime - elapsed)] else []))
    {
      if mode != Time {
        return;
      }
      var elapsedFromLastUpdate := now - lastUpdated;
      if elapsedFromLastUpdate > ReportInterval {
        reports := reports + [TimeLine(elapsed, totalTime, totalTime - elapsed)];
        lastUpdated := now;
      }
    }

    method End()
      modifies this`reports
      ensures reports == old(reports) + [Completed]
    {
      reports := reports + [Completed];
    }
  }

  /** Scenario: two updates 300 ms apart yield one line; the 600 ms one gets through. */
  method DefaultThrottleScenario()
  {
    var d := new Default();
    d.Start(Samples, 10, 0.0, 1000);
    d.Update(1, 1300);
    assert d.reports == [];
    d.Update(2, 1600);
    assert d.reports == [SamplesLine(2, 10, Some(2400))];
    d.UpdateTime(1.0, 2500);
    assert |d.reports| == 1;
  }
}
