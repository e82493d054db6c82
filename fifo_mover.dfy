/**
 * The retrieval queue of the PACS plugin (QtDcmFifoMover): a map from request
 * id to a configured mover, and a run flag. Its worker loop repeatedly takes
 * the entry with the SMALLEST request id (the map is ordered by key), starts
 * that mover, and while the mover runs emits a pending signal carrying that
 * same request id.
 *
 * Whether a started mover is still running is decided by the transfer, which
 * this model does not contain: the number of times isRunning() answers true
 * is a parameter of each iteration. The one-second sleeps are dropped.
 */
module DcmFifo {
  import opened DcmCommon

  /** The signal sendPending(requestId, status). */
  datatype Pending = Pending(requestId: int, status: int)

  /** A mover started by the worker, with the request id it was queued under. */
  datatype Started = Started(requestId: int, mover: MoveJob)

  predicate IsLowerBound(m: int, keys: set<int>) {
    forall x :: x in keys ==> m <= x
  }

  lemma {:induction false} MinimumExists(keys: set<int>)
    requires keys != {}
    ensures exists m :: m in keys && IsLowerBound(m, keys)
  {
    var y := Pick(keys);
    if keys == {y} {
      assert IsLowerBound(y, keys);
    } else {
      MinimumExists(keys - {y});
      var m :| m in keys - {y} && IsLowerBound(m, keys - {y});
      var least := if y < m then y else m;
      forall x | x in keys
        ensures least <= x
      {
        if x != y {
          assert x in keys - {y};
        }
      }
      assert least in keys && IsLowerBound(least, keys);
    }
  }

  /** QMap::firstKey: the smallest key. */
  function FirstKey(keys: set<int>): (k: int)
    requires keys != {}
    ensures k in keys && IsLowerBound(k, keys)
  {
    MinimumExists(keys);
    var m :| m in keys && IsLowerBound(m, keys);
    m
  }

  /** The keys in the order the worker takes them: ascending. */
  function SortedKeys(keys: set<int>): (ids: seq<int>)
    ensures |ids| == |keys|
    decreases |keys|
  {
    if keys == {} then [] else [FirstKey(keys)] + SortedKeys(keys - {FirstKey(keys)})
  }

  predicate StrictlyIncreasing(s: seq<int>) {
    forall i, j :: 0 <= i < j < |s| ==> s[i] < s[j]
  }

  /** Every key is taken, and nothing else. */
  lemma {:induction false} SortedKeysElements(keys: set<int>)
    ensures Elements(SortedKeys(keys)) == keys
  {
    if keys != {} {
      var k := FirstKey(keys);
      SortedKeysElements(keys - {k});
      assert Elements([k] + SortedKeys(keys - {k})) == {k} + Elements(SortedKeys(keys - {k}));
    }
  }

  /** A key below every element of an increasing list extends it at the front. */
  lemma IncreasingCons(k: int, rest: seq<int>)
    requires StrictlyIncreasing(rest) && forall x :: x in rest ==> k < x
    ensures StrictlyIncreasing([k] + rest)
  {
    var ids := [k] + rest;
    forall i, j | 0 <= i < j < |ids|
      ensures ids[i] < ids[j]
    {
      assert ids[j] == rest[j - 1];
      if i == 0 {
        assert rest[j - 1] in rest;
      } else {
        assert ids[i] == rest[i - 1];
      }
    }
  }

  /** The keys are taken in strictly ascending order, hence each exactly once. */
  lemma {:induction false} SortedKeysIncreasing(keys: set<int>)
    ensures StrictlyIncreasing(SortedKeys(keys))
  {
    if keys != {} {
      var k := FirstKey(keys);
      var rest := SortedKeys(keys - {k});
      SortedKeysIncreasing(keys - {k});
      SortedKeysElements(keys - {k});
      forall x | x in rest
        ensures k < x
      {
        assert x in Elements(rest);
      }
      IncreasingCons(k, rest);
    }
  }

  /**
   * Taking the first key off a map that still holds the ids all[done..] leaves
   * the ids all[done + 1..].
   */
  lemma TakeFirst(current: set<int>, all: seq<int>, done: nat)
    requires done < |all| && SortedKeys(current) == all[done..]
    ensures current != {} && FirstKey(current) == all[done]
    ensures SortedKeys(current - {all[done]}) == all[done + 1..]
  {
    assert current != {};
  }

  /** The pending signals emitted while the mover of `requestId` answers running `polls` times. */
  function Heartbeats(requestId: int, polls: nat): seq<Pending> {
    seq(polls, _ => Pending(requestId, STATUS_PENDING))
  }

  /** The pending signals of successive jobs, job j answering running polls[j] times. */
  function HeartbeatTrace(ids: seq<int>, polls: seq<nat>): seq<Pending>
    requires |ids| == |polls|
  {
    if ids == [] then []
    else HeartbeatTrace(ids[..|ids| - 1], polls[..|polls| - 1]) + Heartbeats(ids[|ids| - 1], polls[|polls| - 1])
  }

  /** A pending signal always names one of the jobs that was running, with status PENDING. */
  lemma {:induction false} HeartbeatTraceNamesRunningJobs(ids: seq<int>, polls: seq<nat>)
    requires |ids| == |polls|
    ensures forall p :: p in HeartbeatTrace(ids, polls) ==> p.requestId in ids && p.status == STATUS_PENDING
  {
    if ids != [] {
      HeartbeatTraceNamesRunningJobs(ids[..|ids| - 1], polls[..|polls| - 1]);
      forall p | p in HeartbeatTrace(ids, polls)
        ensures p.requestId in ids && p.status == STATUS_PENDING
      {
        if p in HeartbeatTrace(ids[..|ids| - 1], polls[..|polls| - 1]) {
          assert p.requestId in ids[..|ids| - 1];
        }
      }
    }
  }

  /** The movers started for the ids, in that order. */
  function StartsOf(m: map<int, MoveJob>, ids: seq<int>): seq<Started>
    requires forall j :: 0 <= j < |ids| ==> ids[j] in m
  {
    seq(|ids|, j requires 0 <= j < |ids| => Started(ids[j], m[ids[j]]))
  }

  /** The bookkeeping of one more job taken: the id all[done] joins the prefix. */
  lemma Advance(m0: map<int, MoveJob>, all: seq<int>, schedule: seq<nat>, done: nat)
    requires done < |all| && done < |schedule| && Elements(all) == m0.Keys
    ensures m0 - Elements(all[..done + 1]) == (m0 - Elements(all[..done])) - {all[done]}
    ensures StartsOf(m0, all[..done + 1]) == StartsOf(m0, all[..done]) + [Started(all[done], m0[all[done]])]
    ensures HeartbeatTrace(all[..done + 1], schedule[..done + 1])
         == HeartbeatTrace(all[..done], schedule[..done]) + Heartbeats(all[done], schedule[done])
  {
    assert all[..done + 1][..done] == all[..done];
    assert schedule[..done + 1][..done] == schedule[..done];
    assert Elements(all[..done + 1]) == Elements(all[..done]) + {all[done]};
  }

  lemma ConcatAssoc<T>(a: seq<T>, b: seq<T>, c: seq<T>)
    ensures (a + b) + c == a + (b + c)
  {
  }

  /**
   * The state of the worker after the first `done` ids of `all` (the ids of
   * the initial map m0, ascending) have been taken, starting from the
   * started list s0 and the signal list p0.
   */
  ghost predicate Progress(m0: map<int, MoveJob>, s0: seq<Started>, p0: seq<Pending>, all: seq<int>,
                           schedule: seq<nat>, done: nat, m: map<int, MoveJob>, s: seq<Started>, p: seq<Pending>)
  {
    && all == SortedKeys(m0.Keys) && Elements(all) == m0.Keys
    && done <= |all| && done <= |schedule|
    && (forall j :: 0 <= j < |all| ==> all[j] in m0)
    && SortedKeys(m.Keys) == all[done..]
    && m == m0 - Elements(all[..done])
    && s == s0 + StartsOf(m0, all[..done])
    && p == p0 + HeartbeatTrace(all[..done], schedule[..done])
  }

  lemma ProgressStart(m0: map<int, MoveJob>, s0: seq<Started>, p0: seq<Pending>, schedule: seq<nat>)
    requires Elements(SortedKeys(m0.Keys)) == m0.Keys
    ensures Progress(m0, s0, p0, SortedKeys(m0.Keys), schedule, 0, m0, s0, p0)
  {
    var all := SortedKeys(m0.Keys);
    assert forall j :: 0 <= j < |all| ==> all[j] in Elements(all);
    assert all[..0] == [] && Elements(all[..0]) == {};
    assert m0 - {} == m0;
  }

  /** One job taken by RunNext advances the worker state from `done` to `done + 1` ids. */
  lemma TakeStep(m0: map<int, MoveJob>, s0: seq<Started>, p0: seq<Pending>, all: seq<int>, schedule: seq<nat>, done: nat,
                 m: map<int, MoveJob>, s: seq<Started>, p: seq<Pending>,
                 m': map<int, MoveJob>, s': seq<Started>, p': seq<Pending>)
    requires Progress(m0, s0, p0, all, schedule, done, m, s, p)
    requires done < |all| && done < |schedule| && m != map[]
    requires m' == m - {FirstKey(m.Keys)}
    requires s' == s + [Started(FirstKey(m.Keys), m[FirstKey(m.Keys)])]
    requires p' == p + Heartbeats(FirstKey(m.Keys), schedule[done])
    ensures Progress(m0, s0, p0, all, schedule, done + 1, m', s', p')
  {
    var k := all[done];
    TakeFirst(m.Keys, all, done);
    assert k in m && m[k] == m0[k];
    Advance(m0, all, schedule, done);
    ConcatAssoc(s0, StartsOf(m0, all[..done]), [Started(k, m0[k])]);
    ConcatAssoc(p0, HeartbeatTrace(all[..done], schedule[..done]), Heartbeats(k, schedule[done]));
  }

  /** Once the loop has run, Progress is the postcondition of the worker loop. */
  lemma ProgressFinal(m0: map<int, MoveJob>, s0: seq<Started>, p0: seq<Pending>, all: seq<int>, schedule: seq<nat>, done: nat,
                      m: map<int, MoveJob>, s: seq<Started>, p: seq<Pending>)
    requires Progress(m0, s0, p0, all, schedule, done, m, s, p)
    requires done == if |schedule| < |m0| then |schedule| else |m0|
    ensures
      var ids := SortedKeys(m0.Keys)[..done];
      && (forall j :: 0 <= j < |ids| ==> ids[j] in m0)
      && m == m0 - Elements(ids)
      && s == s0 + StartsOf(m0, ids)
      && p == p0 + HeartbeatTrace(ids, schedule[..done])
  {
  }

  class FifoMover {
    var requestIdMap: map<int, MoveJob>
    var mustRun: bool
    /** The movers started, in order (mover->start()). */
    var started: seq<Started>
    /** The signals sendPending emitted, in order. */
    var pending: seq<Pending>

    constructor ()
      ensures requestIdMap == map[] && !mustRun && started == [] && pending == []
    {
      requestIdMap := map[];
      mustRun := false;
      started := [];
      pending := [];
    }

    /** Queues a mover; an earlier mover under the same id is replaced. */
    method AddRequest(requestId: int, mover: MoveJob)
      modifies this`requestIdMap
      ensures requestId in requestIdMap && requestIdMap[requestId] == mover
      ensures requestIdMap.Keys == old(requestIdMap).Keys + {requestId}
      ensures forall k :: k in old(requestIdMap) && k != requestId ==> requestIdMap[k] == old(requestIdMap)[k]
    {
      requestIdMap := requestIdMap[requestId := mover];
    }

    /** Clears the run flag; the worker loop leaves at its next check. */
    method StopProcessing()
      modifies this`mustRun
      ensures !mustRun
    {
      mustRun := false;
    }

    /**
     * One iteration of the worker loop. On an empty map nothing happens (the
     * worker sleeps). Otherwise the smallest id is taken out of the map, its
     * mover started, and one pending signal for that id is emitted per poll
     * on which the mover answers that it is running.
     */
    method RunNext(polls: nat) returns (taken: Option<int>)
      modifies this`requestIdMap, this`started, this`pending
      ensures old(requestIdMap) == map[] ==>
        taken == None && requestIdMap == old(requestIdMap) && started == old(started) && pending == old(pending)
      ensures old(requestIdMap) != map[] ==>
        && taken == Some(FirstKey(old(requestIdMap).Keys))
        && requestIdMap == old(requestIdMap) - {taken.value}
        && |requestIdMap| == |old(requestIdMap)| - 1
        && started == old(started) + [Started(taken.value, old(requestIdMap)[taken.value])]
        && pending == old(pending) + Heartbeats(taken.value, polls)
    {
      if requestIdMap == map[] {
        taken := None;
        return;
      }
      var key := FirstKey(requestIdMap.Keys);
      var mover := requestIdMap[key];
      requestIdMap := requestIdMap - {key};
      started := started + [Started(key, mover)];
      var tick := 0;
      while tick < polls
        invariant tick <= polls
        modifies this`pending
        invariant pending == old(pending) + Heartbeats(key, tick)
      {
        pending := pending + [Pending(key, STATUS_PENDING)];
        tick := tick + 1;
      }
      taken := Some(key);
    }

    /** One RunNext of iteration i, which takes a job while the queue is not empty. */
    method TakeNext(ghost m0: map<int, MoveJob>, ghost s0: seq<Started>, ghost p0: seq<Pending>, ghost all: seq<int>,
                    schedule: seq<nat>, ghost done: nat, i: nat) returns (ghost done': nat)
      requires i < |schedule| && done == (if i < |m0| then i else |m0|)
      requires Progress(m0, s0, p0, all, schedule, done, requestIdMap, started, pending)
      modifies this`requestIdMap, this`started, this`pending
      ensures done' == (if i + 1 < |m0| then i + 1 else |m0|)
      ensures Progress(m0, s0, p0, all, schedule, done', requestIdMap, started, pending)
    {
      ghost var m, s, p := requestIdMap, started, pending;
      if requestIdMap != map[] {
        assert done < |m0| by {
          assert requestIdMap.Keys != {};
        }
        var taken := RunNext(schedule[i]);
        TakeStep(m0, s0, p0, all, schedule, done, m, s, p, requestIdMap, started, pending);
        done' := done + 1;
      } else {
        assert done == |m0| by {
          assert |requestIdMap.Keys| == 0;
          assert |all| == |m0.Keys| == |m0|;
        }
        var taken := RunNext(schedule[i]);
        done' := done;
      }
    }

    /**
     * Iteration i of the worker loop: the stop request arrives during the
     * last iteration, and the iteration's RunNext still runs.
     */
    method Iteration(ghost m0: map<int, MoveJob>, ghost s0: seq<Started>, ghost p0: seq<Pending>, ghost all: seq<int>,
                     schedule: seq<nat>, ghost done: nat, i: nat) returns (ghost done': nat)
      requires i < |schedule| && done == (if i < |m0| then i else |m0|)
      requires Progress(m0, s0, p0, all, schedule, done, requestIdMap, started, pending)
      modifies this`mustRun, this`requestIdMap, this`started, this`pending
      ensures mustRun == (old(mustRun) && i + 1 < |schedule|)
      ensures done' == (if i + 1 < |m0| then i + 1 else |m0|)
      ensures Progress(m0, s0, p0, all, schedule, done', requestIdMap, started, pending)
    {
      ghost var m, s, p := requestIdMap, started, pending;
      if i + 1 == |schedule| {
        StopProcessing();
        assert requestIdMap == m && started == s && pending == p;
      }
      done' := TakeNext(m0, s0, p0, all, schedule, done, i);
    }

    /**
     * The worker loop: sets the run flag and iterates while it is set. The
     * loop runs |schedule| iterations, the stop request arriving during the
     * last one; the job of iteration j answers running schedule[j] times.
     * The first min(|schedule|, queue size) smallest ids are taken, in
     * ascending order, and only those.
     */
    method Processing(schedule: seq<nat>)
      requires |schedule| > 0
      modifies this`mustRun, this`requestIdMap, this`started, this`pending
      ensures !mustRun
      ensures
        var n := if |schedule| < |old(requestIdMap)| then |schedule| else |old(requestIdMap)|;
        var ids := SortedKeys(old(requestIdMap).Keys)[..n];
        && (forall j :: 0 <= j < |ids| ==> ids[j] in old(requestIdMap))
        && requestIdMap == old(requestIdMap) - Elements(ids)
        && started == old(started) + StartsOf(old(requestIdMap), ids)
        && pending == old(pending) + HeartbeatTrace(ids, schedule[..n])
    {
      ghost var m0, s0, p0 := requestIdMap, started, pending;
      ghost var all := SortedKeys(m0.Keys);
      SortedKeysElements(m0.Keys);
      ProgressStart(m0, s0, p0, schedule);
      mustRun := true;
      var i := 0;
      ghost var done := 0;
      while mustRun
        invariant 0 <= i <= |schedule| && (mustRun <==> i < |schedule|)
        invariant done == (if i < |m0| then i else |m0|)
        invariant Progress(m0, s0, p0, all, schedule, done, requestIdMap, started, pending)
        decreases |schedule| - i
      {
        done := Iteration(m0, s0, p0, all, schedule, done, i);
        i := i + 1;
      }
      assert done == if |schedule| < |m0| then |schedule| else |m0|;
      ProgressFinal(m0, s0, p0, all, schedule, done, requestIdMap, started, pending);
    }
  }
}
