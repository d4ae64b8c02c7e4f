/** How poll cycles drain the pending requests, when one worker runs alone and nothing aborts. */
module Drain {
  import opened Wrappers
  import opened Tables
  import opened Lifecycle
  import opened Processor
  import opened ProcessTheorems
  import opened Protocol

  /** The poll query's condition: pending, or relayed with no submitted or confirmed relay row. */
  predicate Discovered(db: Db, r: RequestId)
    requires r in db.requests
  {
    || db.requests[r].status == Pending
    || (db.requests[r].status == Relayed && Active(RelaysOf(db.relays, r)) == {})
  }

  function Backlog(db: Db): set<RequestId> {
    set r | r in db.requests && Discovered(db, r)
  }

  /** What the query discovers, row by row. */
  lemma DiscoveredMeans(db: Db, r: RequestId)
    requires r in db.requests
    ensures Discovered(db, r) <==>
              || db.requests[r].status == Pending
              || (db.requests[r].status == Relayed
                  && forall k | k in db.relays && db.relays[k].sponsorshipRequestId == r ::
                       db.relays[k].status !in {Submitted, Confirmed})
  {
    var rows := RelaysOf(db.relays, r);
    assert forall k | k in rows && ActiveRelay(rows[k].status) :: k in Active(rows);
    assert forall k | k in db.relays && db.relays[k].sponsorshipRequestId == r :: k in rows;
  }

  /** What it passes over, no call would change, but to complete a request on a confirmed row. */
  lemma PassedOverIsUnchanged(db: Db, r: RequestId, env: Env)
    requires EnvFits(db, r, env) && r in db.requests && !Discovered(db, r)
    ensures Process(db, r, env).0 != db ==>
              && db.requests[r].status == Relayed && Process(db, r, env).0.requests[r].status == Completed
              && exists k | k in RelaysOf(db.relays, r) :: db.relays[k].status == Confirmed
  {
    CommitIsWellShaped(r, SliceOf(db, r), env);
    hide CountsAsSuccess;
  }

  /** A result of the query: the earliest `batchSize` discovered requests, in requestedAt order, ties anyhow. */
  ghost predicate IsBatch(db: Db, batchSize: nat, ids: seq<RequestId>) {
    && |ids| == Min(batchSize, |Backlog(db)|)
    && (forall i | 0 <= i < |ids| :: ids[i] in Backlog(db))
    && (forall i, j | 0 <= i < j < |ids| :: ids[i] != ids[j])
    && (forall i, j | 0 <= i < j < |ids| :: db.requests[ids[i]].requestedAt <= db.requests[ids[j]].requestedAt)
    && (forall r, i | r in Backlog(db) && r !in ids && 0 <= i < |ids| ::
          db.requests[ids[i]].requestedAt <= db.requests[r].requestedAt)
  }

  /** The requests of a batch, processed one after another. */
  ghost function Dispatch(db: Db, ids: seq<RequestId>, envs: seq<Env>): Db
    requires |ids| == |envs| && EnvsFit(db, ids, envs)
    decreases |ids|, 1
  {
    if ids == [] then db
    else
      var n := |ids| - 1;
      Process(Dispatch(db, ids[..n], envs[..n]), ids[n], envs[n]).0
  }

  ghost predicate EnvsFit(db: Db, ids: seq<RequestId>, envs: seq<Env>)
    requires |ids| == |envs|
    decreases |ids|, 0
  {
    if ids == [] then true
    else
      var n := |ids| - 1;
      && EnvsFit(db, ids[..n], envs[..n])
      && EnvFits(Dispatch(db, ids[..n], envs[..n]), ids[n], envs[n])
  }

  /** The poller's loop over one batch. `stoppedBefore` is how many requests were dispatched before a stop, if any. */
  method PollCycle(store: Store, ids: seq<RequestId>, envs: seq<Env>, stoppedBefore: Option<nat>)
    requires |ids| == |envs| && EnvsFit(store.State(), ids, envs)
    modifies store
    ensures var n := if stoppedBefore.Some? then Min(stoppedBefore.value, |ids|) else |ids|;
      EnvsFit(old(store.State()), ids[..n], envs[..n])
        && store.State() == Dispatch(old(store.State()), ids[..n], envs[..n])
  {
    hide Process, EnvFits;
    var i := 0;
    PrefixFits(store.State(), ids, envs, 0);
    while i < |ids| && (stoppedBefore.None? || i < stoppedBefore.value)
      invariant i <= |ids| && (stoppedBefore.Some? ==> i <= stoppedBefore.value)
      invariant EnvsFit(old(store.State()), ids[..i], envs[..i])
      invariant store.State() == Dispatch(old(store.State()), ids[..i], envs[..i])
    {
      PrefixFits(old(store.State()), ids, envs, i + 1);
      assert ids[..i + 1][..i] == ids[..i] && envs[..i + 1][..i] == envs[..i];
      var result := ProcessRequest(store, ids[i], false, envs[i]);
      i := i + 1;
    }
  }

  lemma {:induction false} PrefixFits(db: Db, ids: seq<RequestId>, envs: seq<Env>, n: nat)
    requires |ids| == |envs| && EnvsFit(db, ids, envs) && n <= |ids|
    ensures EnvsFit(db, ids[..n], envs[..n])
    decreases |ids|
  {
    var m := |ids| - 1;
    if n == |ids| {
      assert ids[..n] == ids && envs[..n] == envs;
    } else {
      assert ids[..m][..n] == ids[..n] && envs[..m][..n] == envs[..n];
      PrefixFits(db, ids[..m], envs[..m], n);
    }
  }

  // ---------------------------------------------------------------- draining

  /** A clean start: every request is finished, or pending with no relay rows. */
  ghost predicate Drainable(db: Db) {
    && ForeignKeys(db)
    && (forall r | r in db.requests ::
          Terminal(db.requests[r].status) || (db.requests[r].status == Pending && RelaysOf(db.relays, r) == map[]))
  }

  /** What finishing some requests leaves: they are terminal, and nothing else has changed. */
  ghost predicate Finished(db: Db, db': Db, ids: set<RequestId>) {
    && Drainable(db') && db'.requests.Keys == db.requests.Keys
    && Backlog(db') == Backlog(db) - ids
    && (forall r | r in db.requests :: db'.requests[r].requestedAt == db.requests[r].requestedAt)
  }

  lemma ProcessKeepsKeys(db: Db, id: RequestId, env: Env)
    requires ForeignKeys(db) && EnvFits(db, id, env)
    ensures ForeignKeys(Process(db, id, env).0)
  {
    if id in db.requests {
      CommitIsWellShaped(id, SliceOf(db, id), env);
    }
    hide ProcessSlice;
  }

  /** Whatever the chain answers, one pending request ends in a terminal status. */
  lemma ProcessEnds(db: Db, id: RequestId, env: Env)
    requires Drainable(db) && id in Backlog(db) && EnvFits(db, id, env) && env.maxRetries > 0
    ensures var db' := Process(db, id, env).0;
      id in db'.requests && Terminal(db'.requests[id].status)
        && db'.requests[id].requestedAt == db.requests[id].requestedAt
  {
    var s := SliceOf(db, id);
    FinishesExactly(id, s, env);
    CommitIsWellShaped(id, s, env);
    hide ProcessSlice, CountsAsSuccess;
  }

  lemma OneEnded(db: Db, db': Db, id: RequestId)
    requires Drainable(db) && ForeignKeys(db') && id in db.requests && db'.requests.Keys == db.requests.Keys
    requires forall r | r in db.requests && r != id ::
               db'.requests[r] == db.requests[r] && RelaysOf(db'.relays, r) == RelaysOf(db.relays, r)
    requires Terminal(db'.requests[id].status) && db'.requests[id].requestedAt == db.requests[id].requestedAt
    ensures Finished(db, db', {id})
  {
    hide ForeignKeys, RelaysOf, Active;
    forall r | r in db.requests && r != id
      ensures Discovered(db', r) <==> Discovered(db, r)
    {
    }
  }

  /** So one call takes exactly that request off the backlog. */
  lemma ProcessFinishes(db: Db, id: RequestId, env: Env)
    requires Drainable(db) && id in Backlog(db) && EnvFits(db, id, env) && env.maxRetries > 0
    ensures Finished(db, Process(db, id, env).0, {id})
  {
    ProcessEnds(db, id, env);
    ProcessEffects(db, id, env);
    ProcessKeepsKeys(db, id, env);
    hide Process, EnvFits, ForeignKeys, Finished;
    OneEnded(db, Process(db, id, env).0, id);
  }

  lemma FinishedTransitive(db: Db, db1: Db, db2: Db, ids: set<RequestId>, id: RequestId)
    requires Finished(db, db1, ids) && Finished(db1, db2, {id})
    ensures Finished(db, db2, ids + {id})
  {
  }

  function Members(ids: seq<RequestId>): set<RequestId> {
    set id | id in ids
  }

  ghost predicate Distinct(ids: seq<RequestId>) {
    forall i, j | 0 <= i < j < |ids| :: ids[i] != ids[j]
  }

  lemma MembersSnoc(ids: seq<RequestId>)
    requires ids != [] && Distinct(ids)
    ensures var n := |ids| - 1;
      Distinct(ids[..n]) && ids[n] !in Members(ids[..n]) && Members(ids) == Members(ids[..n]) + {ids[n]}
  {
    assert ids == ids[..|ids| - 1] + [ids[|ids| - 1]];
  }

  lemma {:induction false} DispatchFinishes(db: Db, ids: seq<RequestId>, envs: seq<Env>)
    requires |ids| == |envs| && Drainable(db) && EnvsFit(db, ids, envs) && Distinct(ids)
    requires Members(ids) <= Backlog(db) && forall e | e in envs :: e.maxRetries > 0
    ensures Finished(db, Dispatch(db, ids, envs), Members(ids))
    decreases |ids|
  {
    if ids != [] {
      var n := |ids| - 1;
      MembersSnoc(ids);
      DispatchFinishes(db, ids[..n], envs[..n]);
      var mid := Dispatch(db, ids[..n], envs[..n]);
      assert ids[n] in Members(ids) && ids[n] in Backlog(mid);
      ProcessFinishes(mid, ids[n], envs[n]);
      FinishedTransitive(db, mid, Dispatch(db, ids, envs), Members(ids[..n]), ids[n]);
    }
  }

  datatype Cycle = Cycle(ids: seq<RequestId>, envs: seq<Env>)

  ghost predicate IsCycle(db: Db, batchSize: nat, c: Cycle) {
    && |c.ids| == |c.envs| && IsBatch(db, batchSize, c.ids) && EnvsFit(db, c.ids, c.envs)
    && forall e | e in c.envs :: e.maxRetries > 0
  }

  /** Successive poll cycles, each on the tables the one before left, with no new requests between. */
  ghost predicate AreCycles(db: Db, batchSize: nat, cs: seq<Cycle>)
    decreases |cs|
  {
    cs == [] || (IsCycle(db, batchSize, cs[0]) && AreCycles(Dispatch(db, cs[0].ids, cs[0].envs), batchSize, cs[1..]))
  }

  ghost function AfterCycles(db: Db, batchSize: nat, cs: seq<Cycle>): Db
    requires AreCycles(db, batchSize, cs)
    decreases |cs|
  {
    if cs == [] then db else AfterCycles(Dispatch(db, cs[0].ids, cs[0].envs), batchSize, cs[1..])
  }

  function AllIds(cs: seq<Cycle>): seq<RequestId> {
    if cs == [] then [] else cs[0].ids + AllIds(cs[1..])
  }

  lemma {:induction false} DistinctSize(ids: seq<RequestId>)
    requires Distinct(ids)
    ensures |Members(ids)| == |ids|
  {
    if ids != [] {
      MembersSnoc(ids);
      DistinctSize(ids[..|ids| - 1]);
    }
  }

  /** One cycle finishes exactly its batch. */
  lemma CycleFinishes(db: Db, batchSize: nat, c: Cycle)
    requires Drainable(db) && IsCycle(db, batchSize, c)
    ensures Finished(db, Dispatch(db, c.ids, c.envs), Members(c.ids))
    ensures |Backlog(Dispatch(db, c.ids, c.envs))| == |Backlog(db)| - Min(batchSize, |Backlog(db)|)
  {
    forall id | id in Members(c.ids)
      ensures id in Backlog(db)
    {
      var i :| 0 <= i < |c.ids| && c.ids[i] == id;
    }
    DispatchFinishes(db, c.ids, c.envs);
    DistinctSize(c.ids);
  }

  /** What k full batches leave of n requests. */
  function Left(n: nat, k: nat, batchSize: nat): nat {
    if k * batchSize >= n then 0 else n - k * batchSize
  }

  lemma NoCycleLeavesAll(n: nat, batchSize: nat)
    ensures Left(n, 0, batchSize) == n
  {
  }

  lemma OneCycleLess(n: nat, k: nat, batchSize: nat)
    requires k > 0
    ensures Left(n, k, batchSize) == Left(n - Min(batchSize, n), k - 1, batchSize)
  {
    assert k * batchSize == (k - 1) * batchSize + batchSize;
  }

  /**
   k cycles finish min(n, k * batchSize) of n pending requests: the backlog is the termination
   measure, and it is empty exactly from cycle ceil(n / batchSize) on.
   */
  lemma {:induction false} BacklogDrains(db: Db, batchSize: nat, cs: seq<Cycle>)
    requires Drainable(db) && AreCycles(db, batchSize, cs)
    ensures |Backlog(AfterCycles(db, batchSize, cs))| == Left(|Backlog(db)|, |cs|, batchSize)
    ensures Drainable(AfterCycles(db, batchSize, cs))
    decreases |cs|
  {
    hide Left, Backlog, Drainable, Dispatch, EnvsFit, IsBatch;
    if cs == [] {
      NoCycleLeavesAll(|Backlog(db)|, batchSize);
    } else {
      CycleFinishes(db, batchSize, cs[0]);
      OneCycleLess(|Backlog(db)|, |cs|, batchSize);
      DrainableAfter(db, batchSize, cs[0]);
      BacklogDrains(Dispatch(db, cs[0].ids, cs[0].envs), batchSize, cs[1..]);
    }
  }

  lemma DrainableAfter(db: Db, batchSize: nat, c: Cycle)
    requires IsCycle(db, batchSize, c) && Finished(db, Dispatch(db, c.ids, c.envs), Members(c.ids))
    ensures Drainable(Dispatch(db, c.ids, c.envs))
  {
  }

  /** So after that many cycles every request is terminal. */
  lemma EnoughCyclesFinishAll(db: Db, batchSize: nat, cs: seq<Cycle>, r: RequestId)
    requires Drainable(db) && AreCycles(db, batchSize, cs) && |cs| * batchSize >= |Backlog(db)|
    requires r in AfterCycles(db, batchSize, cs).requests
    ensures Terminal(AfterCycles(db, batchSize, cs).requests[r].status)
  {
    BacklogDrains(db, batchSize, cs);
    assert r !in Backlog(AfterCycles(db, batchSize, cs));
  }

  ghost predicate InOrder(db: Db, ids: seq<RequestId>) {
    && (forall i | 0 <= i < |ids| :: ids[i] in Backlog(db))
    && (forall i, j | 0 <= i < j < |ids| ::
          ids[i] != ids[j] && db.requests[ids[i]].requestedAt <= db.requests[ids[j]].requestedAt)
  }

  lemma BatchThenRest(db: Db, batchSize: nat, first: seq<RequestId>, db': Db, rest: seq<RequestId>)
    requires IsBatch(db, batchSize, first) && Finished(db, db', Members(first)) && InOrder(db', rest)
    ensures InOrder(db, first + rest)
  {
    var all := first + rest;
    forall i | 0 <= i < |rest|
      ensures rest[i] in Backlog(db) && rest[i] !in first
    {
      assert rest[i] in Backlog(db');
      assert rest[i] !in Members(first);
    }
    forall i, j | 0 <= i < j < |all|
      ensures all[i] != all[j] && db.requests[all[i]].requestedAt <= db.requests[all[j]].requestedAt
    {
      if i >= |first| {
        assert all[i] == rest[i - |first|] && all[j] == rest[j - |first|];
      } else if j >= |first| {
        assert all[j] == rest[j - |first|];
      }
    }
  }

  /** Across all cycles requests are dispatched in the order in which they were made, each once. */
  lemma {:induction false} DispatchedInOrder(db: Db, batchSize: nat, cs: seq<Cycle>)
    requires Drainable(db) && AreCycles(db, batchSize, cs)
    ensures InOrder(db, AllIds(cs))
    decreases |cs|
  {
    if cs != [] {
      var db' := Dispatch(db, cs[0].ids, cs[0].envs);
      CycleFinishes(db, batchSize, cs[0]);
      DispatchedInOrder(db', batchSize, cs[1..]);
      BatchThenRest(db, batchSize, cs[0].ids, db', AllIds(cs[1..]));
    }
  }
}
