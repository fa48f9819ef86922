/** The sync scheduler: the enabled flag and its timer, and the flush that
    collects, drains a bounded batch, sends it and puts it back on failure. */
module BatchScheduler {
  import opened Common
  import opened Models
  import opened LocalStore
  import opened ApiClient

  /** Why a flush was requested. */
  datatype Reason = TimerTick | AppOpen | Manual

  /** The most items one flush drains. */
  const BatchLimit: int := 100

  // ---------------------------------------------------------------------
  // The enabled/timer state machine.

  /** `isEnabled`, the timer interval in seconds, every timer ever scheduled
      (true while it has not been invalidated) and the index of the timer the
      `timer` property refers to. */
  datatype Scheduler = Scheduler(enabled: bool, interval: int, timers: seq<bool>, current: Option<nat>)

  /** The timers that can still fire. */
  function ActiveTimers(s: Scheduler): set<nat> {
    set i: nat | i < |s.timers| && s.timers[i]
  }

  /** The state invariant: only the referenced timer can be valid, and only
      while the scheduler is enabled. */
  predicate Valid(s: Scheduler) {
    && (s.current.Some? ==> s.current.value < |s.timers|)
    && (forall i :: 0 <= i < |s.timers| && s.timers[i] ==> s.current == Some(i) && s.enabled)
  }

  /** `init(intervalMinutes:)`: enabled, with no timer yet.  The initial
      value of `isEnabled` does not run its observer. */
  function Init(intervalMinutes: int): (s: Scheduler)
    ensures Valid(s) && s.enabled && ActiveTimers(s) == {}
    ensures s.interval == intervalMinutes * 60
  {
    Scheduler(true, intervalMinutes * 60, [], None)
  }

  /** `timer?.invalidate()`. */
  function InvalidateCurrent(s: Scheduler): (r: Scheduler)
    ensures |r.timers| == |s.timers| && r.enabled == s.enabled && r.current == s.current
    ensures ActiveTimers(r) == ActiveTimers(s) - (if s.current.Some? then {s.current.value} else {})
  {
    match s.current
    case Some(i) => if i < |s.timers| then s.(timers := s.timers[i := false]) else s
    case None => s
  }

  /** `resume()`: invalidate the old timer, then schedule a new repeating
      one only if enabled. */
  function Resume(s: Scheduler): (r: Scheduler)
    ensures r.enabled == s.enabled && r.interval == s.interval
    ensures Valid(s) && s.enabled ==> ActiveTimers(r) == {|s.timers|} && r.current == Some(|s.timers|)
    ensures Valid(s) && !s.enabled ==> ActiveTimers(r) == {}
  {
    var s1 := InvalidateCurrent(s);
    if !s.enabled then s1
    else s1.(timers := s1.timers + [true], current := Some(|s1.timers|))
  }

  /** `stop()`: invalidate the timer and forget it. */
  function Stop(s: Scheduler): (r: Scheduler)
    ensures r.enabled == s.enabled && r.current.None?
    ensures Valid(s) ==> ActiveTimers(r) == {}
  {
    InvalidateCurrent(s).(current := None)
  }

  /** Assigning `isEnabled`: the observer resumes on true and stops on
      false, on every assignment. */
  function SetEnabled(s: Scheduler, enabled: bool): (r: Scheduler)
    ensures r.enabled == enabled
  {
    var s1 := s.(enabled := enabled);
    if enabled then Resume(s1) else Stop(s1)
  }

  /** The half of the invariant that does not mention the enabled flag. */
  predicate OnlyCurrent(s: Scheduler) {
    && (s.current.Some? ==> s.current.value < |s.timers|)
    && (forall i :: 0 <= i < |s.timers| && s.timers[i] ==> s.current == Some(i))
  }

  lemma ResumeValid(s: Scheduler)
    requires Valid(s)
    ensures Valid(Resume(s))
  {
    var r := Resume(s);
    assert forall i :: 0 <= i < |s.timers| && s.timers[i] ==> i in ActiveTimers(s);
    assert forall i :: 0 <= i < |r.timers| && r.timers[i] ==> i in ActiveTimers(r);
  }

  lemma StopValid(s: Scheduler)
    requires OnlyCurrent(s)
    ensures Valid(Stop(s))
  {
    var t := Stop(s);
    assert ActiveTimers(t) == {} by {
      assert forall i :: 0 <= i < |s.timers| && s.timers[i] ==> i in ActiveTimers(s);
    }
    assert forall i :: 0 <= i < |t.timers| && t.timers[i] ==> i in ActiveTimers(t);
  }

  /** Every transition keeps the invariant. */
  lemma ValidPreserved(s: Scheduler, b: bool)
    requires Valid(s)
    ensures Valid(Resume(s)) && Valid(Stop(s)) && Valid(SetEnabled(s, b))
  {
    ResumeValid(s);
    StopValid(s);
    var s1 := s.(enabled := b);
    if b {
      assert Valid(s1);
      ResumeValid(s1);
    } else {
      StopValid(s1);
    }
  }

  /** At most one timer is ever active, and it is the referenced one. */
  lemma {:induction false} AtMostOneTimer(s: Scheduler)
    requires Valid(s)
    ensures |ActiveTimers(s)| <= 1
    ensures forall i :: i in ActiveTimers(s) ==> s.current == Some(i)
  {
    if s.current.Some? {
      var v := s.current.value;
      if v in ActiveTimers(s) {
        assert ActiveTimers(s) == {v};
      } else {
        assert ActiveTimers(s) == {};
      }
    } else {
      assert ActiveTimers(s) == {};
    }
  }

  /** Switching off leaves no timer that can fire; switching on leaves
      exactly one, freshly scheduled. */
  lemma {:induction false} SetEnabledTimers(s: Scheduler)
    requires Valid(s)
    ensures ActiveTimers(SetEnabled(s, false)) == {}
    ensures ActiveTimers(SetEnabled(s, true)) == {|s.timers|}
  {
    var off := s.(enabled := false);
    assert Valid(off) ==> ActiveTimers(Stop(off)) == {};
    assert ActiveTimers(Stop(off)) == {} by {
      assert InvalidateCurrent(off).timers == InvalidateCurrent(s).timers;
      assert ActiveTimers(Stop(off)) == ActiveTimers(Stop(s));
    }
    var on := s.(enabled := true);
    assert Valid(on);
  }

  // ---------------------------------------------------------------------
  // The flush.

  /** Everything a flush learns from the world: the items its collection
      step stored, where the drain fails (if it does), whether the envelope
      encodes, the server's answer and where the requeue append fails (if it
      does). */
  datatype FlushEnv = FlushEnv(
    collected: seq<BatchItem>,
    drainFault: DrainFault,
    encodes: bool,
    response: Response,
    requeue: AppendOutcome)

  /** The boolean the flush returns, the store content afterwards, the batch
      it drained and the request it sent, if any. */
  datatype FlushResult = FlushResult(ok: bool, content: string, drained: seq<BatchItem>, request: Option<Request>)

  /** The guard at the top of `flushIfNeeded`. */
  predicate Runs(enabled: bool, reason: Reason) {
    enabled || reason == Manual
  }

  /** The store after the collection step. */
  function Collected(codec: Codec, content: string, env: FlushEnv): string {
    AppendItems(codec, content, env.collected, Completed).content
  }

  /** `flushIfNeeded(reason:)`.  Skipped with false when disabled unless
      manual; otherwise collect, drain at most 100, send, and on a failed
      send append the drained batch back at the tail and return false.  A
      thrown store error yields false and goes no further. */
  function FlushIfNeeded(codec: Codec, client: Client, enabled: bool, reason: Reason, content: string, env: FlushEnv): (r: FlushResult)
    ensures !Runs(enabled, reason) ==> r == FlushResult(false, content, [], None)
    ensures |r.drained| <= BatchLimit
    ensures r.ok ==> Runs(enabled, reason) && !Drain(codec, Collected(codec, content, env), BatchLimit, env.drainFault).threw
    ensures r.request.Some? ==> r.request.value.body.Some? ==> r.request.value.body.value.data == r.drained
  {
    if !Runs(enabled, reason) then FlushResult(false, content, [], None)
    else
      var c1 := Collected(codec, content, env);
      var d := Drain(codec, c1, BatchLimit, env.drainFault);
      if d.threw then FlushResult(false, d.content, [], None)
      else
        assert |d.items| <= BatchLimit by {
          assert |d.items| <= HeadCount(BatchLimit, |Lines(c1)|);
        }
        var sent := Send(client, d.items, env.encodes, env.response);
        if sent.ok then FlushResult(true, d.content, d.items, sent.request)
        else
          var back := AppendItems(codec, d.content, d.items, env.requeue);
          FlushResult(false, back.content, d.items, sent.request)
  }

  /** A manual flush does the same whatever the enabled flag says. */
  lemma ManualIgnoresEnabled(codec: Codec, client: Client, content: string, env: FlushEnv)
    ensures FlushIfNeeded(codec, client, false, Manual, content, env)
         == FlushIfNeeded(codec, client, true, Manual, content, env)
  {
  }

  /** A flush that runs and whose drain succeeds hands the first
      min(k, 100) records after collection to the uploader, decoded. */
  lemma FlushDrainsHead(codec: Codec, client: Client, enabled: bool, reason: Reason, content: string, env: FlushEnv)
    requires Runs(enabled, reason) && env.drainFault == NoFault
    ensures var ls := Lines(Collected(codec, content, env));
      FlushIfNeeded(codec, client, enabled, reason, content, env).drained
        == DecodeAll(codec, ls[..HeadCount(BatchLimit, |ls|)])
  {
  }

  /** A successful send leaves only the records after the batch; nothing is
      put back. */
  lemma SuccessfulFlushRemovesBatch(codec: Codec, client: Client, enabled: bool, reason: Reason, content: string, env: FlushEnv)
    requires Runs(enabled, reason) && env.drainFault == NoFault
    requires env.collected != [] || Lines(content) != []
    requires IsSuccess(env.response)
    ensures var r := FlushIfNeeded(codec, client, enabled, reason, content, env);
      var ls := Lines(Collected(codec, content, env));
      && r.ok
      && Lines(r.content) == ls[HeadCount(BatchLimit, |ls|)..]
  {
  }

  /** The flush, step by step, once it is past its guard and its drain
      succeeded. */
  lemma FlushUnfolds(codec: Codec, client: Client, enabled: bool, reason: Reason, content: string, env: FlushEnv)
    requires Runs(enabled, reason) && env.drainFault == NoFault
    ensures var r := FlushIfNeeded(codec, client, enabled, reason, content, env);
      var d := Drain(codec, Collected(codec, content, env), BatchLimit, NoFault);
      var sent := Send(client, d.items, env.encodes, env.response);
      && r.drained == d.items
      && r.ok == sent.ok
      && r.request == sent.request
      && r.content == (if sent.ok then d.content else AppendItems(codec, d.content, d.items, env.requeue).content)
  {
  }

  /** Collection appends the collected items' records after the queue. */
  lemma CollectedQueue(codec: Codec, content: string, q: seq<BatchItem>, env: FlushEnv)
    requires FramedCodec(codec)
    requires Framed(content) && Lines(content) == Encoded(codec, q)
    ensures Framed(Collected(codec, content, env))
    ensures Lines(Collected(codec, content, env)) == Encoded(codec, q + env.collected)
  {
    assert env.collected[..|env.collected|] == env.collected;
    MapConcat(codec.encode, q, env.collected);
  }

  /** Draining a store of well-formed records returns the head items and
      leaves the tail's records. */
  lemma DrainQueue(codec: Codec, content: string, all: seq<BatchItem>)
    requires RoundTrips(codec)
    requires Lines(content) == Encoded(codec, all)
    ensures var d := Drain(codec, content, BatchLimit, NoFault);
      var m := HeadCount(BatchLimit, |all|);
      && d.items == all[..m]
      && Lines(d.content) == Encoded(codec, all[m..])
      && Framed(d.content)
  {
    var m := HeadCount(BatchLimit, |all|);
    assert Encoded(codec, all)[..m] == Encoded(codec, all[..m]);
    assert Encoded(codec, all)[m..] == Encoded(codec, all[m..]);
    DecodeEncoded(codec, all[..m]);
  }

  /** Conservation across a failed flush: when the send fails and the
      requeue completes, the store holds the records that followed the batch
      and then the drained batch, re-encoded in its original order. */
  lemma {:induction false} FailedFlushConserves(codec: Codec, client: Client, enabled: bool, reason: Reason, content: string, env: FlushEnv)
    requires FramedCodec(codec) && Framed(content)
    requires Runs(enabled, reason) && env.drainFault == NoFault && env.requeue == Completed
    requires !FlushIfNeeded(codec, client, enabled, reason, content, env).ok
    ensures var r := FlushIfNeeded(codec, client, enabled, reason, content, env);
      var ls := Lines(Collected(codec, content, env));
      var m := HeadCount(BatchLimit, |ls|);
      && r.drained == DecodeAll(codec, ls[..m])
      && Lines(r.content) == ls[m..] + Encoded(codec, r.drained)
      && Framed(r.content)
  {
    FlushUnfolds(codec, client, enabled, reason, content, env);
    var c1 := Collected(codec, content, env);
    var d := Drain(codec, c1, BatchLimit, NoFault);
    assert Framed(c1);
    assert d.items[..|d.items|] == d.items;
  }

  /** The item-level no-loss statement for one failed flush: with a
      round-tripping coder and a store of well-formed records, the items in
      the store afterwards are, as a multiset, the items before plus the
      collected ones. */
  lemma FailedFlushKeepsItems(codec: Codec, client: Client, enabled: bool, reason: Reason, content: string, q: seq<BatchItem>, env: FlushEnv)
    requires FramedCodec(codec) && RoundTrips(codec)
    requires Framed(content) && Lines(content) == Encoded(codec, q)
    requires Runs(enabled, reason) && env.drainFault == NoFault && env.requeue == Completed
    requires !FlushIfNeeded(codec, client, enabled, reason, content, env).ok
    ensures var r := FlushIfNeeded(codec, client, enabled, reason, content, env);
      exists q': seq<BatchItem> :: Lines(r.content) == Encoded(codec, q') && multiset(q') == multiset(q + env.collected)
  {
    var q2 := FlushStepQueue(codec, client, enabled, reason, content, q, env);
  }

  /** One running flush with a fault-free store, on a store of well-formed
      records, leaves a store of well-formed records: the queue after is a
      rotation of the queue before plus the collected items when the send
      fails, and its tail when the send succeeds. */
  lemma {:induction false} FlushStepQueue(codec: Codec, client: Client, enabled: bool, reason: Reason, content: string, q: seq<BatchItem>, env: FlushEnv)
    returns (q': seq<BatchItem>)
    requires FramedCodec(codec) && RoundTrips(codec)
    requires Framed(content) && Lines(content) == Encoded(codec, q)
    requires Runs(enabled, reason) && env.drainFault == NoFault && env.requeue == Completed
    ensures var r := FlushIfNeeded(codec, client, enabled, reason, content, env);
      && Framed(r.content)
      && Lines(r.content) == Encoded(codec, q')
      && r.drained == (q + env.collected)[..HeadCount(BatchLimit, |q + env.collected|)]
      && (!r.ok ==> multiset(q') == multiset(q + env.collected))
      && (r.ok ==> q' == (q + env.collected)[HeadCount(BatchLimit, |q + env.collected|)..])
  {
    var all := q + env.collected;
    var m := HeadCount(BatchLimit, |all|);
    var c1 := Collected(codec, content, env);
    var d := Drain(codec, c1, BatchLimit, NoFault);
    assert d.items == all[..m] && Lines(d.content) == Encoded(codec, all[m..]) && Framed(d.content) by {
      CollectedQueue(codec, content, q, env);
      DrainQueue(codec, c1, all);
    }
    var sent := Send(client, d.items, env.encodes, env.response);
    var r := FlushIfNeeded(codec, client, enabled, reason, content, env);
    assert r.drained == d.items && r.ok == sent.ok
        && r.content == (if sent.ok then d.content else AppendItems(codec, d.content, d.items, Completed).content) by {
      FlushUnfolds(codec, client, enabled, reason, content, env);
    }
    if sent.ok {
      q' := all[m..];
    } else {
      q' := all[m..] + all[..m];
      Requeued(codec, d.content, all[m..], all[..m]);
      RotationPermutes(all, m);
    }
  }

  /** Appending the drained head back behind the remaining tail leaves the
      records of the rotated queue. */
  lemma Requeued(codec: Codec, content: string, tail: seq<BatchItem>, head: seq<BatchItem>)
    requires FramedCodec(codec)
    requires Framed(content) && Lines(content) == Encoded(codec, tail)
    ensures var back := AppendItems(codec, content, head, Completed);
      Framed(back.content) && Lines(back.content) == Encoded(codec, tail + head)
  {
    assert head[..|head|] == head;
    MapConcat(codec.encode, tail, head);
  }

  /** Something that happens to the queue: producers append items, or a
      flush runs whose send fails. */
  datatype Activity =
    | Produce(items: seq<BatchItem>)
    | FailedFlush(enabled: bool, reason: Reason, env: FlushEnv)

  /** The store after one activity (producers append with no fault). */
  function Perform(codec: Codec, client: Client, content: string, a: Activity): string {
    match a
    case Produce(xs) => AppendItems(codec, content, xs, Completed).content
    case FailedFlush(e, why, env) => FlushIfNeeded(codec, client, e, why, content, env).content
  }

  /** The items one activity puts into the queue: what a producer appends,
      or what a flush that got past its guard collected. */
  function Contributed(a: Activity): multiset<BatchItem> {
    match a
    case Produce(xs) => multiset(xs)
    case FailedFlush(e, why, env) => if Runs(e, why) then multiset(env.collected) else multiset{}
  }

  function Replay(codec: Codec, client: Client, content: string, acts: seq<Activity>): string
    decreases |acts|
  {
    if acts == [] then content else Replay(codec, client, Perform(codec, client, content, acts[0]), acts[1..])
  }

  function Produced(acts: seq<Activity>): multiset<BatchItem>
    decreases |acts|
  {
    if acts == [] then multiset{} else Contributed(acts[0]) + Produced(acts[1..])
  }

  /** The activity is a flush whose store steps succeed but whose send
      fails. */
  predicate SendFails(a: Activity) {
    a.FailedFlush? ==>
      a.env.drainFault == NoFault && a.env.requeue == Completed && !IsSuccess(a.env.response)
  }

  /** One activity on a store of well-formed records leaves a store of
      well-formed records holding the same items plus the contributed
      ones. */
  lemma {:induction false} PerformKeepsItems(codec: Codec, client: Client, content: string, q: seq<BatchItem>, a: Activity)
    returns (q2: seq<BatchItem>)
    requires FramedCodec(codec) && RoundTrips(codec)
    requires Framed(content) && Lines(content) == Encoded(codec, q)
    requires SendFails(a)
    ensures var next := Perform(codec, client, content, a);
      && Framed(next)
      && Lines(next) == Encoded(codec, q2)
      && multiset(q2) == multiset(q) + Contributed(a)
  {
    match a {
      case Produce(xs) =>
        assert xs[..|xs|] == xs;
        q2 := q + xs;
        MapConcat(codec.encode, q, xs);
      case FailedFlush(e, why, env) =>
        if Runs(e, why) {
          q2 := FlushStepQueue(codec, client, e, why, content, q, env);
          var r := FlushIfNeeded(codec, client, e, why, content, env);
          var all := q + env.collected;
          if r.ok {
            // The server failed, so a true result means the batch was empty
            // and the send was skipped: the queue is unchanged.
            FlushUnfolds(codec, client, e, why, content, env);
            assert r.drained == [];
            assert all[..HeadCount(BatchLimit, |all|)] == [];
            assert HeadCount(BatchLimit, |all|) == 0;
            assert q2 == all;
          }
        } else {
          q2 := q;
        }
    }
  }

  lemma TailSendFails(acts: seq<Activity>)
    requires acts != [] && forall i :: 0 <= i < |acts| ==> SendFails(acts[i])
    ensures forall i :: 0 <= i < |acts[1..]| ==> SendFails(acts[1..][i])
  {
  }

  /** No loss: whatever mix of appends and failing flushes runs, the items
      in the queue are, as a multiset, the ones it started with plus every
      item produced or collected since; none is lost and none duplicated. */
  lemma {:induction false} NoLoss(codec: Codec, client: Client, content: string, q: seq<BatchItem>, acts: seq<Activity>)
    requires FramedCodec(codec) && RoundTrips(codec)
    requires Framed(content) && Lines(content) == Encoded(codec, q)
    requires forall i :: 0 <= i < |acts| ==> SendFails(acts[i])
    ensures var c := Replay(codec, client, content, acts);
      && Framed(c)
      && multiset(DecodeAll(codec, Lines(c))) == multiset(q) + Produced(acts)
    decreases |acts|
  {
    if acts == [] {
      DecodeEncoded(codec, q);
    } else {
      var q2 := PerformKeepsItems(codec, client, content, q, acts[0]);
      TailSendFails(acts);
      NoLoss(codec, client, Perform(codec, client, content, acts[0]), q2, acts[1..]);
    }
  }

  /** The store-fault hypothesis of `NoLoss` is needed.  A drain that
      throws after its rewrite (its final line-break write or the close
      after it fails) has already removed the batch, and the error skips the
      send and the requeue: the first 100 records are gone. */
  lemma DrainFaultLosesBatch(codec: Codec, client: Client, enabled: bool, reason: Reason, content: string, env: FlushEnv)
    requires Runs(enabled, reason)
    requires env.drainFault == TerminatorFails || env.drainFault == CloseFails
    requires |Lines(Collected(codec, content, env))| > BatchLimit
    ensures var r := FlushIfNeeded(codec, client, enabled, reason, content, env);
      var ls := Lines(Collected(codec, content, env));
      && !r.ok && r.drained == [] && r.request.None?
      && Lines(r.content) == ls[BatchLimit..]
  {
  }

  /** Likewise for the requeue: when the send fails and the first item's
      requeue append throws before writing, the drained batch is in neither
      the store nor the server, so the store holds fewer items than were
      queued and collected. */
  lemma RequeueFaultLosesBatch(codec: Codec, client: Client, enabled: bool, reason: Reason, content: string,
                               q: seq<BatchItem>, env: FlushEnv)
    requires FramedCodec(codec) && RoundTrips(codec)
    requires Framed(content) && Lines(content) == Encoded(codec, q)
    requires Runs(enabled, reason) && env.drainFault == NoFault && !IsSuccess(env.response)
    requires env.requeue == FaultAt(0, Unwritten)
    requires q + env.collected != []
    ensures var r := FlushIfNeeded(codec, client, enabled, reason, content, env);
      var all := q + env.collected;
      var m := HeadCount(BatchLimit, |all|);
      && !r.ok && 0 < m && r.drained == all[..m]
      && Lines(r.content) == Encoded(codec, all[m..])
      && |DecodeAll(codec, Lines(r.content))| < |all|
  {
    var all := q + env.collected;
    var m := HeadCount(BatchLimit, |all|);
    var c1 := Collected(codec, content, env);
    var d := Drain(codec, c1, BatchLimit, NoFault);
    assert d.items == all[..m] && Lines(d.content) == Encoded(codec, all[m..]) by {
      CollectedQueue(codec, content, q, env);
      DrainQueue(codec, c1, all);
    }
    var sent := Send(client, d.items, env.encodes, env.response);
    var back := AppendItems(codec, d.content, d.items, env.requeue);
    assert 0 < m && !sent.ok;
    assert Written(m, env.requeue) == 0;
    assert Lines(back.content) == Lines(d.content) by {
      assert d.items[..0] == [];
    }
    FlushUnfolds(codec, client, enabled, reason, content, env);
    DecodeEncoded(codec, all[m..]);
  }

  /** A timer flush of a small well-formed queue whose send fails puts the
      whole queue back in its order. */
  lemma SmallFlushFails(codec: Codec, client: Client, content: string, xs: seq<BatchItem>, failure: Response)
    requires FramedCodec(codec) && RoundTrips(codec)
    requires Framed(content) && Lines(content) == Encoded(codec, xs)
    requires 0 < |xs| <= BatchLimit && !IsSuccess(failure)
    ensures var r := FlushIfNeeded(codec, client, true, TimerTick, content, FlushEnv([], NoFault, true, failure, Completed));
      && !r.ok && r.drained == xs
      && Framed(r.content) && Lines(r.content) == Encoded(codec, xs)
  {
    var env := FlushEnv([], NoFault, true, failure, Completed);
    assert xs + [] == xs;
    var q' := FlushStepQueue(codec, client, true, TimerTick, content, xs, env);
    FailedFlushConserves(codec, client, true, TimerTick, content, env);
    assert Lines(content)[|xs|..] == [];
  }

  /** A timer flush of a small well-formed queue whose send succeeds
      delivers the whole queue and empties the store. */
  lemma SmallFlushSucceeds(codec: Codec, client: Client, content: string, xs: seq<BatchItem>, success: Response)
    requires FramedCodec(codec) && RoundTrips(codec)
    requires Framed(content) && Lines(content) == Encoded(codec, xs)
    requires 0 < |xs| <= BatchLimit && IsSuccess(success)
    ensures var r := FlushIfNeeded(codec, client, true, TimerTick, content, FlushEnv([], NoFault, true, success, Completed));
      && r.ok && r.drained == xs && Count(r.content) == 0
      && r.request.Some? && r.request.value.body == Some(BatchEnvelope(client.deviceId, xs))
  {
    var env := FlushEnv([], NoFault, true, success, Completed);
    assert xs + [] == xs;
    var q' := FlushStepQueue(codec, client, true, TimerTick, content, xs, env);
  }

  /** The requeue round trip: three appended items survive a failed flush in
      their order, and the next successful flush delivers exactly them. */
  lemma RequeueRoundTrip(codec: Codec, client: Client, a: BatchItem, b: BatchItem, c: BatchItem, failure: Response, success: Response)
    requires FramedCodec(codec) && RoundTrips(codec)
    requires !IsSuccess(failure) && IsSuccess(success)
    ensures var c0 := AppendItems(codec, Created, [a, b, c], Completed).content;
      var r1 := FlushIfNeeded(codec, client, true, TimerTick, c0, FlushEnv([], NoFault, true, failure, Completed));
      var r2 := FlushIfNeeded(codec, client, true, TimerTick, r1.content, FlushEnv([], NoFault, true, success, Completed));
      && !r1.ok && Count(r1.content) == 3
      && r2.ok && r2.drained == [a, b, c] && Count(r2.content) == 0
      && r2.request.Some? && r2.request.value.body == Some(BatchEnvelope(client.deviceId, [a, b, c]))
  {
    var xs := [a, b, c];
    var c0 := AppendItems(codec, Created, xs, Completed).content;
    assert Lines(c0) == Encoded(codec, xs) by {
      assert xs[..3] == xs;
    }
    SmallFlushFails(codec, client, c0, xs, failure);
    var r1 := FlushIfNeeded(codec, client, true, TimerTick, c0, FlushEnv([], NoFault, true, failure, Completed));
    SmallFlushSucceeds(codec, client, r1.content, xs, success);
  }
}
