/**
 * The control flow of the loop in `Subtask.run`, apart from what `process`
 * does to the tables: which fetched state is bound last, where the sync
 * points fall, and when an exception ends the loop. The fetched items are
 * left abstract (`I`); whether `process` raises on each of them is a
 * sequence of flags.
 */
module Cadence {
  import opened Values

  /** The default of `Subtask.run`'s `sync_point_interval`. */
  const DefaultSyncPointInterval: int := 100

  /** The value `run` yields at a sync point. */
  datatype RemoteProgress = RemoteProgress(increment: int, current: int)

  /** A sync point: the state written to the run's row, then the progress yielded. */
  datatype SyncPoint = SyncPoint(saved: State, progress: RemoteProgress)

  /**
   * `i % sync_point_interval == 0 and i != 0`. Python's `%` and Dafny's agree
   * on whether the remainder is zero for either sign of the interval; an
   * interval of 0 makes Python raise instead (see `Attempted`).
   */
  predicate IsSyncPoint(i: int, interval: int) {
    interval != 0 && i % interval == 0 && i != 0
  }

  /** The sync points met while the first `k` items complete `process`. */
  function Checkpoints<I>(pairs: seq<(I, State)>, k: nat, interval: int): seq<SyncPoint>
    requires k <= |pairs|
  {
    if k == 0 then []
    else
      Checkpoints(pairs, k - 1, interval) +
        if IsSyncPoint(k - 1, interval) then [SyncPoint(pairs[k - 1].1, RemoteProgress(interval, k - 1))] else []
  }

  /**
   * Every sync point in `r` is at an index below `k` that is a non-zero
   * multiple of the interval; it saves the state fetched with that very item
   * and reports the interval as its increment and the index as its current
   * value.
   */
  ghost predicate SoundSyncs<I>(pairs: seq<(I, State)>, r: seq<SyncPoint>, k: nat, interval: int) {
    forall j :: 0 <= j < |r| ==>
      && 0 < r[j].progress.current < k <= |pairs|
      && IsSyncPoint(r[j].progress.current, interval)
      && r[j].progress.increment == interval
      && r[j].saved == pairs[r[j].progress.current].1
  }

  /** Each non-zero multiple of the interval below `k` has a sync point in `r`. */
  ghost predicate CompleteSyncs(r: seq<SyncPoint>, k: nat, interval: int) {
    forall c :: 0 <= c < k && IsSyncPoint(c, interval) ==> exists j :: 0 <= j < |r| && r[j].progress.current == c
  }

  /** The sync points in `r` come in increasing order of index. */
  ghost predicate OrderedSyncs(r: seq<SyncPoint>) {
    forall a, b :: 0 <= a < b < |r| ==> r[a].progress.current < r[b].progress.current
  }

  /** Checkpoint soundness: the sync points met over the first `k` items are all genuine. */
  lemma {:induction false} CheckpointsSound<I>(pairs: seq<(I, State)>, k: nat, interval: int)
    requires k <= |pairs|
    ensures SoundSyncs(pairs, Checkpoints(pairs, k, interval), k, interval)
  {
    if k > 0 {
      CheckpointsSound(pairs, k - 1, interval);
      var prev := Checkpoints(pairs, k - 1, interval);
      var r := Checkpoints(pairs, k, interval);
      if IsSyncPoint(k - 1, interval) {
        assert r == prev + [SyncPoint(pairs[k - 1].1, RemoteProgress(interval, k - 1))];
        assert forall j :: 0 <= j < |prev| ==> r[j] == prev[j];
      } else {
        assert r == prev;
      }
    }
  }

  /** Checkpoint completeness: no non-zero multiple of the interval below `k` is skipped. */
  lemma {:induction false} CheckpointsComplete<I>(pairs: seq<(I, State)>, k: nat, interval: int)
    requires k <= |pairs|
    ensures CompleteSyncs(Checkpoints(pairs, k, interval), k, interval)
  {
    if k > 0 {
      CheckpointsComplete(pairs, k - 1, interval);
      var prev := Checkpoints(pairs, k - 1, interval);
      var r := Checkpoints(pairs, k, interval);
      forall c | 0 <= c < k && IsSyncPoint(c, interval)
        ensures exists j :: 0 <= j < |r| && r[j].progress.current == c
      {
        if c == k - 1 {
          assert r == prev + [SyncPoint(pairs[k - 1].1, RemoteProgress(interval, k - 1))];
          assert r[|prev|].progress.current == c;
        } else {
          var j :| 0 <= j < |prev| && prev[j].progress.current == c;
          assert r[..|prev|] == prev;
          assert r[j] == prev[j];
        }
      }
    }
  }

  /** Sync points are met in increasing order of index. */
  lemma {:induction false} CheckpointsOrdered<I>(pairs: seq<(I, State)>, k: nat, interval: int)
    requires k <= |pairs|
    ensures OrderedSyncs(Checkpoints(pairs, k, interval))
  {
    if k > 0 {
      CheckpointsOrdered(pairs, k - 1, interval);
      CheckpointsSound(pairs, k - 1, interval);
      var prev := Checkpoints(pairs, k - 1, interval);
      var r := Checkpoints(pairs, k, interval);
      if IsSyncPoint(k - 1, interval) {
        assert r == prev + [SyncPoint(pairs[k - 1].1, RemoteProgress(interval, k - 1))];
        assert forall a :: 0 <= a < |prev| ==> r[a] == prev[a];
      } else {
        assert r == prev;
      }
    }
  }

  /** An interval of 0 never reaches a sync point. */
  lemma {:induction false} NoCheckpointsWithoutInterval<I>(pairs: seq<(I, State)>, k: nat)
    requires k <= |pairs|
    ensures Checkpoints(pairs, k, 0) == []
  {
    if k > 0 {
      NoCheckpointsWithoutInterval(pairs, k - 1);
    }
  }

  /** The state a run's row holds after the sync points `syncs`: the last one's, or `s0` before any. */
  function CheckpointState(syncs: seq<SyncPoint>, s0: State): State {
    if syncs == [] then s0 else syncs[|syncs| - 1].saved
  }

  function Progresses(syncs: seq<SyncPoint>): seq<RemoteProgress> {
    seq(|syncs|, i requires 0 <= i < |syncs| => syncs[i].progress)
  }

  /** With the default interval of 100, 250 processed items give progress at 100 and at 200 only. */
  lemma DefaultCadenceOverTwoHundredFifty<I>(pairs: seq<(I, State)>)
    requires |pairs| == 250
    ensures Progresses(Checkpoints(pairs, 250, DefaultSyncPointInterval)) ==
            [RemoteProgress(100, 100), RemoteProgress(100, 200)]
  {
    var r := Checkpoints(pairs, 250, 100);
    CheckpointsSound(pairs, 250, 100);
    CheckpointsComplete(pairs, 250, 100);
    CheckpointsOrdered(pairs, 250, 100);
    SyncPointsBelowTwoHundredFifty(r);
  }

  /** A sound, complete and ordered list of sync points for interval 100 below 250 is the one at 100 and 200. */
  lemma SyncPointsBelowTwoHundredFifty(r: seq<SyncPoint>)
    requires forall j :: 0 <= j < |r| ==>
               0 < r[j].progress.current < 250 && IsSyncPoint(r[j].progress.current, 100) && r[j].progress.increment == 100
    requires CompleteSyncs(r, 250, 100)
    requires OrderedSyncs(r)
    ensures Progresses(r) == [RemoteProgress(100, 100), RemoteProgress(100, 200)]
  {
    assert IsSyncPoint(100, 100) && IsSyncPoint(200, 100);
    forall j | 0 <= j < |r|
      ensures r[j].progress.current == 100 || r[j].progress.current == 200
    {
      var c := r[j].progress.current;
      assert c % 100 == 0 && 0 < c < 250;
      assert c == (c / 100) * 100;
    }
    var j1 :| 0 <= j1 < |r| && r[j1].progress.current == 100;
    var j2 :| 0 <= j2 < |r| && r[j2].progress.current == 200;
    assert j1 < j2;
    assert r[0].progress.current <= r[j1].progress.current;
    assert j1 == 0;
    assert r[1].progress.current <= r[j2].progress.current;
    assert j2 == 1;
    var last := |r| - 1;
    assert r[last].progress.current >= r[j2].progress.current;
    assert last == j2;
  }

  /** The index of the first `true`, or the length: where the first exception comes. */
  function FirstTrue(bs: seq<bool>): (k: nat)
    ensures k <= |bs|
    ensures forall j :: 0 <= j < k ==> !bs[j]
    ensures k < |bs| ==> bs[k]
  {
    if bs == [] then 0
    else if bs[0] then 0
    else 1 + FirstTrue(bs[1..])
  }

  /**
   * How many items have `process` called on them: all of them, or up to and
   * including the first that raises; with an interval of 0 the modulo after
   * the first item raises.
   */
  function Attempted(n: nat, firstRaise: nat, interval: int): (m: nat)
    requires firstRaise <= n
    ensures m <= n
  {
    if interval == 0 then (if n == 0 then 0 else 1)
    else if firstRaise < n then firstRaise + 1
    else n
  }

  /** The `state` variable after the loop has bound the first `m` pairs. */
  function StateAfter<I>(init: State, pairs: seq<(I, State)>, m: nat): State
    requires m <= |pairs|
  {
    if m == 0 then init else pairs[m - 1].1
  }

  /** Where the `try` block of `Subtask.run` stands after some turns of its loop. */
  datatype Progress = Progress(state: State, syncs: seq<SyncPoint>, processed: nat, failed: bool)

  /**
   * One turn of the loop on item `i`: bind the pair's state, `process` the
   * item, then either stop (`process` or the modulo raised) or, at a sync
   * point, record the state and the progress.
   */
  function Turn<I>(interval: int, p: Progress, pair: (I, State), raised: bool, i: nat): Progress {
    var stop := raised || interval == 0;
    Progress(
      pair.1,
      if !stop && IsSyncPoint(i, interval) then p.syncs + [SyncPoint(pair.1, RemoteProgress(interval, i))] else p.syncs,
      i + 1,
      stop)
  }

  /**
   * The loop, turn by turn, over the first `k` fetched pairs, where
   * `raises[i]` says whether `process` raises on item `i`; once an exception
   * is caught nothing more happens.
   */
  function Trace<I>(interval: int, init: State, pairs: seq<(I, State)>, raises: seq<bool>, k: nat): (p: Progress)
    requires |raises| == |pairs| && k <= |pairs|
    ensures p.processed <= k
  {
    if k == 0 then Progress(init, [], 0, false)
    else
      var p := Trace(interval, init, pairs, raises, k - 1);
      if p.failed then p else Turn(interval, p, pairs[k - 1], raises[k - 1], k - 1)
  }

  /** The loop has caught an exception after `k` turns exactly when the modulo or some `process` among them raised. */
  lemma {:induction false} TraceFailed<I>(interval: int, init: State, pairs: seq<(I, State)>, raises: seq<bool>, k: nat)
    requires |raises| == |pairs| && k <= |pairs|
    ensures Trace(interval, init, pairs, raises, k).failed == (k > 0 && (interval == 0 || FirstTrue(raises) < k))
  {
    if k > 0 {
      TraceFailed(interval, init, pairs, raises, k - 1);
      var fr := FirstTrue(raises);
      if fr == k - 1 {
        assert raises[k - 1];
      } else if fr >= k {
        assert !raises[k - 1];
      }
    }
  }

  /** How many items the loop has processed after `k` turns. */
  function Turns(k: nat, firstRaise: nat, interval: int): nat {
    if k == 0 then 0 else Attempted(k, if firstRaise < k then firstRaise else k, interval)
  }

  /**
   * The turn-by-turn loop agrees with the closed form on how far it got: it
   * has processed the items up to the first exception and bound the state
   * fetched with the last of them.
   */
  lemma {:induction false} TraceProcessed<I>(interval: int, init: State, pairs: seq<(I, State)>, raises: seq<bool>, k: nat)
    requires |raises| == |pairs| && k <= |pairs|
    ensures var p := Trace(interval, init, pairs, raises, k);
            p.processed == Turns(k, FirstTrue(raises), interval) && p.state == StateAfter(init, pairs, p.processed)
  {
    if k > 0 {
      TraceProcessed(interval, init, pairs, raises, k - 1);
      TraceFailed(interval, init, pairs, raises, k - 1);
    }
  }

  /** The sync points the loop has met after `k` turns: those below `k` and below the first raising item. */
  lemma {:induction false} TraceSyncs<I>(interval: int, init: State, pairs: seq<(I, State)>, raises: seq<bool>, k: nat)
    requires |raises| == |pairs| && k <= |pairs|
    ensures var fr := FirstTrue(raises);
            Trace(interval, init, pairs, raises, k).syncs == Checkpoints(pairs, if fr < k then fr else k, interval)
  {
    if k > 0 {
      TraceSyncs(interval, init, pairs, raises, k - 1);
      TraceFailed(interval, init, pairs, raises, k - 1);
      var fr := FirstTrue(raises);
      var prev := Trace(interval, init, pairs, raises, k - 1);
      var syncs := Trace(interval, init, pairs, raises, k).syncs;
      if interval == 0 {
        assert syncs == prev.syncs;
        NoCheckpointsWithoutInterval(pairs, if fr < k then fr else k);
        NoCheckpointsWithoutInterval(pairs, if fr < k - 1 then fr else k - 1);
      } else if fr < k - 1 {
        assert syncs == prev.syncs;
      } else if fr == k - 1 {
        assert raises[k - 1];
        assert syncs == prev.syncs;
      } else {
        assert !raises[k - 1];
        assert syncs == prev.syncs +
          if IsSyncPoint(k - 1, interval) then [SyncPoint(pairs[k - 1].1, RemoteProgress(interval, k - 1))] else [];
      }
    }
  }

  /**
   * The whole loop in closed form: it catches an exception when the modulo
   * or some `process` raised; it processed the items up to and including the
   * first that raised (just the first item with an interval of 0), bound the
   * state fetched with the last of them, and met the sync points before the
   * first raising item.
   */
  lemma TraceAll<I>(interval: int, init: State, pairs: seq<(I, State)>, raises: seq<bool>)
    requires |raises| == |pairs|
    ensures var fr := FirstTrue(raises);
            var m := Attempted(|pairs|, fr, interval);
            var p := Trace(interval, init, pairs, raises, |pairs|);
            && p.failed == ((interval == 0 && |pairs| > 0) || fr < |pairs|)
            && p.processed == m
            && p.state == StateAfter(init, pairs, m)
            && p.syncs == Checkpoints(pairs, fr, interval)
  {
    TraceFailed(interval, init, pairs, raises, |pairs|);
    TraceProcessed(interval, init, pairs, raises, |pairs|);
    TraceSyncs(interval, init, pairs, raises, |pairs|);
  }

  /** Once an exception is caught, later turns change nothing. */
  lemma {:induction false} TraceStaysFailed<I>(interval: int, init: State, pairs: seq<(I, State)>, raises: seq<bool>, i: nat, k: nat)
    requires |raises| == |pairs| && i <= k <= |pairs|
    requires Trace(interval, init, pairs, raises, i).failed
    ensures Trace(interval, init, pairs, raises, k) == Trace(interval, init, pairs, raises, i)
  {
    if i < k {
      TraceStaysFailed(interval, init, pairs, raises, i, k - 1);
    }
  }

  /**
   * When `process` raises on item `k` and on none before it, the loop
   * stops there having processed `k + 1` items, with the state fetched with
   * item `k` bound (the loop binds it before calling `process`), and with
   * no sync point at or after `k`.
   */
  lemma RaisingItemEndsLoop<I>(interval: int, init: State, pairs: seq<(I, State)>, raises: seq<bool>, k: nat)
    requires |raises| == |pairs| && interval != 0
    requires k < |pairs| && raises[k] && forall j :: 0 <= j < k ==> !raises[j]
    ensures var p := Trace(interval, init, pairs, raises, |pairs|);
            && p.failed && p.processed == k + 1 && p.state == pairs[k].1
            && forall j :: 0 <= j < |p.syncs| ==> p.syncs[j].progress.current < k
  {
    TraceAll(interval, init, pairs, raises);
    assert FirstTrue(raises) == k;
    CheckpointsSound(pairs, k, interval);
  }

  /**
   * When no `process` raises and the interval is not 0, the loop goes
   * through every item without catching anything and ends on the state
   * fetched with the last item (the initial state when there is none).
   */
  lemma CleanLoopRunsAll<I>(interval: int, init: State, pairs: seq<(I, State)>, raises: seq<bool>)
    requires |raises| == |pairs| && interval != 0
    requires forall j :: 0 <= j < |raises| ==> !raises[j]
    ensures var p := Trace(interval, init, pairs, raises, |pairs|);
            && !p.failed && p.processed == |pairs|
            && p.state == if |pairs| == 0 then init else pairs[|pairs| - 1].1
  {
    TraceAll(interval, init, pairs, raises);
    assert FirstTrue(raises) == |pairs|;
  }
}
