/**
 Which requests can still be finished, under the retry limits that the workers use: exactly when some
 run brings a request to an ending, and what stays as it is when none does.
 */
module Finishing {
  import opened Wrappers
  import opened Tables
  import opened Lifecycle
  import opened ContractClient
  import opened Processor
  import opened ProcessTheorems
  import opened Protocol
  import opened Serializability
  import opened TableSafety
  import Attempts

  ghost predicate SomeConfirmed(relays: map<RelayId, RelayTransaction>) {
    exists k | k in relays :: relays[k].status == Confirmed
  }

  /** Some answers of the world, and some choice of the active row, let a worker with this limit finish. */
  ghost predicate CouldFinish(s: Slice, limit: nat) {
    && Processable(s.request.status)
    && (if s.request.status == Pending && s.wallet == Some(true) then true
        else if Active(s.relays) != {} then s.request.status == Relayed && SomeConfirmed(s.relays)
        else if |s.relays| >= limit then s.request.status == Relayed
        else |s.relays| < DEFAULT_MAX_RELAY_ATTEMPTS)
  }

  lemma FinishingCould(s: Slice, env: Env)
    requires PickIsActive(s, env) && CanFinish(s, env)
    ensures CouldFinish(s, env.maxRetries)
  {
  }

  // ---------------------------------------------------------------- nothing changes what cannot be finished

  /** Every worker that locks this request has a limit under which it cannot be finished. */
  ghost predicate LocksAreHopeless(s: Slice, id: RequestId, ls: seq<Label>) {
    forall l | l in ls && l.Lock? && l.id == id :: !CouldFinish(s, l.maxRetries)
  }

  ghost predicate OpenOnesAreHopeless(s: State, id: RequestId)
    requires id in s.db.requests
  {
    forall w | w in s.running && s.running[w].id == id :: !CouldFinish(SliceOf(s.db, id), s.running[w].env.maxRetries)
  }

  lemma HopelessCommit(db: Db, tx: Tx)
    requires TxCoherent(db, tx) && tx.pc.AtCommit? && !CouldFinish(SliceOf(db, tx.id), tx.env.maxRetries)
    ensures Install(db, tx.id, tx.writes) == db
  {
    CommitIsAtomic(db, tx);
    FinishesExactly(tx.id, SliceOf(db, tx.id), tx.env);
    hide CanFinish, CouldFinish, ProcessSlice;
    if tx.writes.request.Some? {
      FinishingCould(SliceOf(db, tx.id), tx.env);
    }
  }

  lemma CommitKeepsHopeless(s: State, worker: WorkerId, id: RequestId)
    requires Coherent(s) && OpenRow(s, worker) && s.running[worker].pc.AtCommit?
    requires id in s.db.requests && OpenOnesAreHopeless(s, id)
    ensures id in Committed(s, worker).db.requests && SliceOf(Committed(s, worker).db, id) == SliceOf(s.db, id)
  {
    var tx := s.running[worker];
    assert SliceOf(s.db, tx.id).request == s.db.requests[tx.id];
    hide At, CouldFinish, Install, SliceOf;
    assert TxCoherent(s.db, tx);
    if tx.id == id {
      HopelessCommit(s.db, tx);
    } else {
      hide ProcessSlice, Process;
      CommitIsAtomic(s.db, tx);
      InstallSlices(s.db, tx.id, tx.writes, id);
      CommitHasEffects(s.db, tx);
    }
  }

  lemma StepKeepsHopelessSlice(s: State, l: Label, id: RequestId)
    requires Coherent(s) && Enabled(s, l) && id in s.db.requests && OpenOnesAreHopeless(s, id)
    ensures id in Apply(s, l).db.requests && SliceOf(Apply(s, l).db, id) == SliceOf(s.db, id)
  {
    hide At, TxCoherent, SliceOf, CouldFinish, Enabled, Apply;
    match l
    case RegisterWallet(walletId, address) =>
      RegisterStepIs(s, l);
      RegisterKeepsSlices(s, walletId, address);
    case InsertRequest(post, newId) =>
      InsertStepIs(s, l);
      InsertKeepsSlices(s.db, newId, NewRequest(s.posts[post].walletId, s.clock));
    case CommitTx(worker) =>
      CommitStepIs(s, l);
      hide Coherent;
      CommitKeepsHopeless(s, worker, id);
    case _ => OnlyThreeStepsWrite(s, l);
  }

  /** An open transaction after a step was open before it, on the same request under the same limit, or locks now. */
  ghost predicate ComesFrom(s: State, l: Label, tx: Tx) {
    || (exists w | w in s.running :: s.running[w].id == tx.id && s.running[w].env.maxRetries == tx.env.maxRetries)
    || (l.Lock? && l.id == tx.id && l.maxRetries == tx.env.maxRetries)
  }

  lemma OpenOnesComeFrom(s: State, l: Label, w: WorkerId)
    requires Enabled(s, l) && w in Apply(s, l).running
    ensures ComesFrom(s, l, Apply(s, l).running[w])
  {
    if Elsewhere(l) {
      hide Enabled, Apply;
      ElsewhereTouchesNothing(s, l);
      assert w in s.running;
    } else if l.Statement? {
      hide Step;
      var tx := s.running[l.worker];
      Attempts.StepKeepsLimit(SliceOf(s.db, tx.id), tx, s.clock, l.pick);
      StepKeepsIdentity(SliceOf(s.db, tx.id), tx, s.clock, l.pick);
      assert w in s.running;
    } else if l.Answer? {
      hide Enabled, Apply;
      AnswerStepIs(s, l);
      assert w in s.running;
    } else if !l.Lock? {
      hide Step, Install, Register;
      assert w in s.running;
    }
  }

  /**
   While every worker's limit rules an ending out, no run changes the request's row or its relay rows,
   whatever the chain answers.
   */
  lemma {:induction false} HopelessStays(s: State, ls: seq<Label>, id: RequestId)
    requires Coherent(s) && ValidRun(s, ls) && id in s.db.requests
    requires OpenOnesAreHopeless(s, id) && LocksAreHopeless(SliceOf(s.db, id), id, ls)
    ensures id in After(s, ls).db.requests && SliceOf(After(s, ls).db, id) == SliceOf(s.db, id)
    ensures Coherent(After(s, ls)) && OpenOnesAreHopeless(After(s, ls), id)
    decreases |ls|
  {
    hide Coherent, SliceOf, CouldFinish, Enabled, Apply;
    if ls != [] {
      var n := |ls| - 1;
      var before, after := After(s, ls[..n]), After(s, ls);
      HopelessStays(s, ls[..n], id);
      StepKeepsCoherence(before, ls[n]);
      StepKeepsHopelessSlice(before, ls[n], id);
      forall w | w in after.running && after.running[w].id == id
        ensures !CouldFinish(SliceOf(after.db, id), after.running[w].env.maxRetries)
      {
        OpenOnesComeFrom(before, ls[n], w);
        assert ls[n] in ls;
      }
    }
  }

  /**
   A relayed request with three or more relay rows, none active, stays exactly as it is for as long as
   every worker's configured limit is above its number of rows.
   */
  lemma StuckOverRuns(s: State, ls: seq<Label>, id: RequestId)
    requires Coherent(s) && ValidRun(s, ls) && id in s.db.requests && Active(RelaysOf(s.db.relays, id)) == {}
    requires RetryCount(s.db, id) >= DEFAULT_MAX_RELAY_ATTEMPTS && s.db.requests[id].status == Relayed
    requires forall w | w in s.running && s.running[w].id == id :: s.running[w].env.maxRetries > RetryCount(s.db, id)
    requires forall l | l in ls && l.Lock? && l.id == id :: l.maxRetries > RetryCount(s.db, id)
    ensures SameStory(s.db, After(s, ls).db, id)
  {
    hide Coherent, ValidRun, After;
    HopelessStays(s, ls, id);
  }

  // ---------------------------------------------------------------- finishing what can be finished

  ghost predicate LocksUse(ls: seq<Label>, id: RequestId, limit: nat) {
    forall l | l in ls && l.Lock? && l.id == id :: l.maxRetries == limit
  }

  /** Some run goes from one state to the other in which this request is only locked under this limit. */
  ghost predicate ReachesUnder(s: State, t: State, id: RequestId, limit: nat) {
    exists ls :: ValidRun(s, ls) && LocksUse(ls, id, limit) && After(s, ls) == t
  }

  lemma NextUnder(s: State, t: State, l: Label, id: RequestId, limit: nat)
    requires ReachesUnder(s, t, id, limit) && Enabled(t, l) && (l.Lock? && l.id == id ==> l.maxRetries == limit)
    ensures ReachesUnder(s, Apply(t, l), id, limit)
  {
    hide Enabled, Apply;
    var ls :| ValidRun(s, ls) && LocksUse(ls, id, limit) && After(s, ls) == t;
    assert (ls + [l])[..|ls|] == ls;
    assert ValidRun(s, ls + [l]) && After(s, ls + [l]) == Apply(t, l);
    assert LocksUse(ls + [l], id, limit);
  }

  /** A choice of the active row that finds a confirmed one if there is one. */
  ghost predicate GoodPick(s: Slice, pick: RelayId) {
    && (Active(s.relays) != {} ==> pick in Active(s.relays))
    && (SomeConfirmed(s.relays) ==> pick in s.relays && s.relays[pick].status == Confirmed)
  }

  lemma GoodPickExists(s: Slice) returns (pick: RelayId)
    ensures GoodPick(s, pick)
  {
    if SomeConfirmed(s.relays) {
      pick :| pick in s.relays && s.relays[pick].status == Confirmed;
    } else if Active(s.relays) != {} {
      pick :| pick in Active(s.relays);
    } else {
      pick := 0;
    }
  }

  /** On its way to a commit that finishes the request. */
  ghost predicate OnTrack(s: Slice, tx: Tx) {
    && At(s, tx) && CouldFinish(s, tx.env.maxRetries) && s.wallet.Some?
    && !tx.pc.Doomed? && !tx.pc.AtReceipt?
    && (tx.pc.AtSettle? || tx.pc.AtFinish? ==> !CountsAsSuccess(tx.env.result))
    && (tx.pc.AtIncrement? || tx.pc.AtCommit? ==> tx.writes.request.Some?)
  }

  function StatementsLeft(pc: Pc): nat {
    match pc
    case AtWallet => 12
    case AtGuard => 11
    case AtCount => 10
    case AtApprove => 9
    case AtCreate => 8
    case AtRelayed => 7
    case AtSubmit => 6
    case AtExecute => 5
    case AtReceipt(_) => 4
    case AtSettle => 3
    case AtFinish => 2
    case AtIncrement => 1
    case AtCommit(_) => 0
    case Doomed => 0
  }

  /** One statement further, and still on its way. */
  ghost predicate Advances(s: Slice, tx: Tx, tx': Tx) {
    OnTrack(s, tx') && StatementsLeft(tx'.pc) < StatementsLeft(tx.pc) && tx'.id == tx.id
      && tx'.env.maxRetries == tx.env.maxRetries && tx'.env.relayId == tx.env.relayId
  }

  lemma GuardsStayOnTrack(s: Slice, tx: Tx, now: Time, pick: RelayId)
    requires OnTrack(s, tx) && GoodPick(s, pick) && (tx.pc.AtWallet? || tx.pc.AtGuard? || tx.pc.AtCount?)
    ensures Advances(s, tx, Step(s, tx, now, pick))
  {
    GuardsKeepAssertion(s, tx, now, pick);
    hide ProcessSlice;
  }

  lemma SubmissionStaysOnTrack(s: Slice, tx: Tx, now: Time, pick: RelayId)
    requires OnTrack(s, tx) && GoodPick(s, pick)
    requires tx.pc.AtApprove? || tx.pc.AtCreate? || tx.pc.AtRelayed? || tx.pc.AtSubmit?
    ensures Advances(s, tx, Step(s, tx, now, pick))
  {
    SubmissionKeepsAssertion(s, tx, now, pick);
    hide ProcessSlice, SomeConfirmed;
  }

  lemma SettlementStaysOnTrack(s: Slice, tx: Tx, now: Time, pick: RelayId)
    requires OnTrack(s, tx) && GoodPick(s, pick) && (tx.pc.AtSettle? || tx.pc.AtFinish? || tx.pc.AtIncrement?)
    ensures Advances(s, tx, Step(s, tx, now, pick))
  {
    SettlementKeepsAssertion(s, tx, now, pick);
    hide ProcessSlice, SomeConfirmed;
  }

  lemma StatementStaysOnTrack(s: Slice, tx: Tx, now: Time, pick: RelayId)
    requires OnTrack(s, tx) && GoodPick(s, pick) && AtStatement(tx.pc)
    ensures Advances(s, tx, Step(s, tx, now, pick))
  {
    hide OnTrack, GoodPick, Advances;
    if tx.pc.AtWallet? || tx.pc.AtGuard? || tx.pc.AtCount? {
      GuardsStayOnTrack(s, tx, now, pick);
    } else if tx.pc.AtApprove? || tx.pc.AtCreate? || tx.pc.AtRelayed? || tx.pc.AtSubmit? {
      SubmissionStaysOnTrack(s, tx, now, pick);
    } else {
      SettlementStaysOnTrack(s, tx, now, pick);
    }
  }

  lemma RefusalStaysOnTrack(s: Slice, tx: Tx)
    requires OnTrack(s, tx) && tx.pc.AtExecute?
    ensures Advances(s, tx, Told(tx, ExecuteRelay(NotInitialized)))
  {
    TellingKeepsAssertion(s, tx, ExecuteRelay(NotInitialized));
    OtherAnswersNotRecognised(NotInitialized);
    hide At, CouldFinish;
  }

  /** The state with one more worker inside its transaction. */
  function With(s: State, worker: WorkerId, tx: Tx): State {
    s.(running := s.running[worker := tx])
  }

  lemma StatementWith(s: State, worker: WorkerId, tx: Tx, pick: RelayId)
    requires OpenRow(With(s, worker, tx), worker) && AtStatement(tx.pc) && GoodPick(SliceOf(s.db, tx.id), pick)
    ensures Enabled(With(s, worker, tx), Statement(worker, pick))
    ensures Apply(With(s, worker, tx), Statement(worker, pick))
            == With(s, worker, Step(SliceOf(s.db, tx.id), tx, s.clock, pick))
  {
    hide Step, AtStatement, SomeConfirmed;
  }

  lemma AnswerWith(s: State, worker: WorkerId, tx: Tx)
    requires OpenRow(With(s, worker, tx), worker) && tx.pc.AtExecute?
    ensures Enabled(With(s, worker, tx), Answer(worker, NotInitialized))
    ensures Apply(With(s, worker, tx), Answer(worker, NotInitialized))
            == With(s, worker, Told(tx, ExecuteRelay(NotInitialized)))
  {
    hide ExecuteRelay;
  }

  /** From any point on its way, the transaction can be taken to its commit. */
  lemma {:induction false} TakenToCommit(s0: State, s: State, worker: WorkerId, tx: Tx) returns (last: Tx)
    requires ForeignKeys(s.db) && tx.id in s.db.requests && OnTrack(SliceOf(s.db, tx.id), tx)
    requires ReachesUnder(s0, With(s, worker, tx), tx.id, tx.env.maxRetries)
    ensures last.id == tx.id && last.env.relayId == tx.env.relayId && last.pc.AtCommit?
    ensures OnTrack(SliceOf(s.db, tx.id), last)
    ensures ReachesUnder(s0, With(s, worker, last), tx.id, tx.env.maxRetries)
    decreases StatementsLeft(tx.pc)
  {
    var slice := SliceOf(s.db, tx.id);
    if tx.pc.AtCommit? {
      last := tx;
    } else {
      var next: Tx;
      if tx.pc.AtExecute? {
        hide OnTrack, Enabled, Apply, With, ReachesUnder;
        AnswerWith(s, worker, tx);
        RefusalStaysOnTrack(slice, tx);
        NextUnder(s0, With(s, worker, tx), Answer(worker, NotInitialized), tx.id, tx.env.maxRetries);
        next := Told(tx, ExecuteRelay(NotInitialized));
      } else {
        assert AtStatement(tx.pc);
        hide OnTrack, Enabled, Apply, With, ReachesUnder, Step, AtStatement;
        var pick := GoodPickExists(slice);
        StatementWith(s, worker, tx, pick);
        StatementStaysOnTrack(slice, tx, s.clock, pick);
        NextUnder(s0, With(s, worker, tx), Statement(worker, pick), tx.id, tx.env.maxRetries);
        next := Step(slice, tx, s.clock, pick);
      }
      last := TakenToCommit(s0, s, worker, next);
    }
  }

  lemma CommitWith(s: State, worker: WorkerId, tx: Tx)
    requires Coherent(With(s, worker, tx)) && OpenRow(With(s, worker, tx), worker) && tx.pc.AtCommit?
    requires tx.writes.request.Some?
    ensures Enabled(With(s, worker, tx), CommitTx(worker))
    ensures var t := Apply(With(s, worker, tx), CommitTx(worker));
      tx.id in t.db.requests && Terminal(t.db.requests[tx.id].status)
  {
    hide At, ProcessSlice, Process;
    assert With(s, worker, tx).running[worker] == tx;
    assert TxCoherent(s.db, tx);
    CommitIsAtomic(s.db, tx);
  }

  lemma LockWith(s: State, worker: WorkerId, id: RequestId, limit: nat, key: RelayId)
    requires ForeignKeys(s.db) && id in s.db.requests && CouldFinish(SliceOf(s.db, id), limit)
    requires worker !in s.running && key !in s.db.relays && key !in s.abandoned
    requires forall x | x in s.mempool :: s.mempool[x].attempt != key
    requires forall w | w in s.running :: s.running[w].id != id && s.running[w].env.relayId != key
    ensures Enabled(s, Lock(worker, id, limit, 1, key))
    ensures Apply(s, Lock(worker, id, limit, 1, key)) == With(s, worker, Open(id, limit, 1, key))
    ensures OnTrack(SliceOf(s.db, id), Open(id, limit, 1, key))
  {
    hide CouldFinish;
  }

  /** A key that no row, no transfer and no open transaction has. */
  lemma UnusedKey(s: State) returns (key: RelayId)
    ensures key !in s.db.relays && key !in s.abandoned
    ensures forall x | x in s.mempool :: s.mempool[x].attempt != key
    ensures forall w | w in s.running :: s.running[w].env.relayId != key
  {
    var broadcast := set x | x in s.mempool :: s.mempool[x].attempt;
    var open := set w | w in s.running :: s.running[w].env.relayId;
    key := Unused(s.db.relays.Keys + s.abandoned.Keys + broadcast + open);
    assert forall x | x in s.mempool :: s.mempool[x].attempt in broadcast;
    assert forall w | w in s.running :: s.running[w].env.relayId in open;
  }

  /** What could be finished is finished by the next worker that locks it, if the executor then refuses to run. */
  lemma CouldFinishFinishes(s: State, id: RequestId, limit: nat) returns (t: State)
    requires Coherent(s) && id in s.db.requests && CouldFinish(SliceOf(s.db, id), limit)
    requires forall w | w in s.running :: s.running[w].id != id
    ensures ReachesUnder(s, t, id, limit) && id in t.db.requests && Terminal(t.db.requests[id].status)
  {
    hide At, CouldFinish, OnTrack, Enabled, Apply, TxCoherent;
    var worker := Unused(s.running.Keys);
    var key := UnusedKey(s);
    LockWith(s, worker, id, limit, key);
    assert ValidRun(s, []) && LocksUse([], id, limit) && After(s, []) == s;
    NextUnder(s, s, Lock(worker, id, limit, 1, key), id, limit);
    var last := TakenToCommit(s, s, worker, Open(id, limit, 1, key));
    OnTrackIsCoherent(s, worker, last);
    CommitWith(s, worker, last);
    NextUnder(s, With(s, worker, last), CommitTx(worker), id, limit);
    t := Apply(With(s, worker, last), CommitTx(worker));
  }

  lemma OnTrackIsCoherent(s: State, worker: WorkerId, tx: Tx)
    requires Coherent(s) && tx.id in s.db.requests && OnTrack(SliceOf(s.db, tx.id), tx)
    requires tx.env.relayId !in s.db.relays
    requires forall w | w in s.running && w != worker ::
               s.running[w].id != tx.id && s.running[w].env.relayId != tx.env.relayId
    ensures Coherent(With(s, worker, tx)) && OpenRow(With(s, worker, tx), worker)
    ensures tx.pc.AtCommit? ==> tx.writes.request.Some?
  {
    assert TxCoherent(s.db, tx);
    hide At, CouldFinish, TxCoherent;
    assert ForeignKeys(s.db);
    hide Coherent;
    RunningUpdateKeepsCoherence(s, With(s, worker, tx), worker, tx);
  }

  /**
   A request that has not ended and is not being processed: under a configured limit, some run, with any
   other workers, posts and answers, ends it exactly when a worker with that limit could finish it as it
   stands now.
   */
  lemma FinishableExactly(s: State, id: RequestId, limit: nat)
    requires Coherent(s) && id in s.db.requests && !Terminal(s.db.requests[id].status)
    requires forall w | w in s.running :: s.running[w].id != id
    ensures (exists t :: ReachesUnder(s, t, id, limit) && id in t.db.requests && Terminal(t.db.requests[id].status))
            <==> CouldFinish(SliceOf(s.db, id), limit)
  {
    hide Coherent, CouldFinish, ValidRun, After;
    if CouldFinish(SliceOf(s.db, id), limit) {
      var t := CouldFinishFinishes(s, id, limit);
    } else {
      forall t | ReachesUnder(s, t, id, limit) && id in t.db.requests
        ensures !Terminal(t.db.requests[id].status)
      {
        var ls :| ValidRun(s, ls) && LocksUse(ls, id, limit) && After(s, ls) == t;
        HopelessStays(s, ls, id);
        assert SliceOf(t.db, id).request == SliceOf(s.db, id).request;
      }
    }
  }
}
