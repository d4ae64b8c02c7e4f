/** How relay attempts are numbered over whole runs, from any well-numbered tables. */
module Attempts {
  import opened Tables
  import opened Lifecycle
  import opened Processor
  import opened ProcessTheorems
  import opened Protocol
  import opened Serializability
  import opened TableSafety
  import C = Contracts

  /**
   Every request's attempts are numbered 1..n, at most one of them active, and n is at most what the
   request started with in `start`, or the smaller of `limit` and the lifecycle's own limit.
   */
  ghost predicate Numbered(start: Db, db: Db, limit: nat) {
    forall r | r in db.requests :: WellNumbered(RelaysOf(db.relays, r)) && RetryCount(db, r) <= Bound(start, r, limit)
  }

  function Bound(start: Db, r: RequestId, limit: nat): nat {
    C.Max(RetryCount(start, r), Min(limit, 3))
  }

  ghost predicate AllWellNumbered(db: Db) {
    forall r | r in db.requests :: WellNumbered(RelaysOf(db.relays, r))
  }

  /** Every worker is configured with at most `limit` retries. */
  ghost predicate LimitedTo(ls: seq<Label>, limit: nat) {
    forall l | l in ls && l.Lock? :: l.maxRetries <= limit
  }

  ghost predicate RunningWithin(s: State, limit: nat) {
    forall w | w in s.running :: s.running[w].env.maxRetries <= limit
  }

  lemma ProcessKeepsBound(start: Db, db: Db, id: RequestId, env: Env, limit: nat, r: RequestId)
    requires EnvFits(db, id, env) && r in db.requests && env.maxRetries <= limit
    requires WellNumbered(RelaysOf(db.relays, r)) && RetryCount(db, r) <= Bound(start, r, limit)
    ensures var db' := Process(db, id, env).0;
      WellNumbered(RelaysOf(db'.relays, r)) && RetryCount(db', r) <= Bound(start, r, limit)
  {
    hide WellNumbered, Process, EnvFits;
    ProcessKeepsNumbering(db, id, env, r);
  }

  lemma CommitKeepsNumbered(start: Db, db: Db, tx: Tx, limit: nat)
    requires TxCoherent(db, tx) && tx.pc.AtCommit? && Numbered(start, db, limit)
    requires tx.env.maxRetries <= limit
    ensures Numbered(start, Install(db, tx.id, tx.writes), limit)
  {
    hide At, WellNumbered, Install, Bound, RetryCount;
    CommitIsAtomic(db, tx);
    ProcessEffects(db, tx.id, tx.env);
    hide Process, TxCoherent;
    var db' := Process(db, tx.id, tx.env).0;
    forall r | r in db'.requests
      ensures WellNumbered(RelaysOf(db'.relays, r)) && RetryCount(db', r) <= Bound(start, r, limit)
    {
      ProcessKeepsBound(start, db, tx.id, tx.env, limit, r);
    }
  }

  lemma InsertKeepsNumbered(start: Db, s: State, post: PostId, id: RequestId, limit: nat)
    requires ForeignKeys(s.db) && Numbered(start, s.db, limit) && post in s.posts && id !in s.db.requests
    ensures Numbered(start, InsertedAt(s, post, id).db, limit)
  {
    assert RelaysOf(s.db.relays, id) == map[];
  }

  lemma StepKeepsLimit(s: Slice, tx: Tx, now: Time, pick: RelayId)
    requires Active(s.relays) != {} ==> pick in Active(s.relays)
    ensures Step(s, tx, now, pick).env.maxRetries == tx.env.maxRetries
  {
  }

  lemma StepKeepsRunning(s: State, l: Label, limit: nat)
    requires Enabled(s, l) && RunningWithin(s, limit) && (l.Lock? ==> l.maxRetries <= limit)
    ensures RunningWithin(Apply(s, l), limit)
  {
    if Elsewhere(l) {
      hide Enabled, Apply;
      ElsewhereTouchesNothing(s, l);
    } else if l.Statement? {
      hide Step;
      var tx := s.running[l.worker];
      StepKeepsLimit(SliceOf(s.db, tx.id), tx, s.clock, l.pick);
    } else if l.Answer? {
      hide Enabled, Apply;
      AnswerStepIs(s, l);
    } else {
      hide Step, Install, Register;
    }
  }

  lemma StepKeepsNumbered(start: Db, s: State, l: Label, limit: nat)
    requires Coherent(s) && Enabled(s, l) && Numbered(start, s.db, limit) && RunningWithin(s, limit)
    ensures Numbered(start, Apply(s, l).db, limit)
  {
    hide At, TxCoherent, ForeignKeys, Numbered, Enabled, Apply;
    match l
    case RegisterWallet(walletId, address) =>
      RegisterStepIs(s, l);
      RegisterKeepsNumbered(start, s, walletId, address, limit);
    case InsertRequest(post, id) =>
      InsertStepIs(s, l);
      InsertKeepsNumbered(start, s, post, id, limit);
    case CommitTx(worker) =>
      CommitStepIs(s, l);
      CommitKeepsNumbered(start, s.db, s.running[worker], limit);
    case _ => OnlyThreeStepsWrite(s, l);
  }

  lemma RegisterKeepsNumbered(start: Db, s: State, walletId: WalletId, address: nat, limit: nat)
    requires Numbered(start, s.db, limit)
    ensures Numbered(start, RegisteredAt(s, walletId, address).db, limit)
  {
  }

  /**
   Over every run, from any tables in which attempts are numbered 1..n with at most one active, they
   stay so; and no request ever has more attempts than the smaller of the configured limit and the
   lifecycle's own limit of three, or than it started with.
   */
  lemma {:induction false} AttemptsStayNumbered(s: State, ls: seq<Label>, limit: nat)
    requires Quiet(s) && ValidRun(s, ls) && AllWellNumbered(s.db) && LimitedTo(ls, limit)
    ensures Numbered(s.db, After(s, ls).db, limit) && RunningWithin(After(s, ls), limit)
    decreases |ls|
  {
    if ls != [] {
      hide Coherent, Numbered, Enabled, Apply;
      var n := |ls| - 1;
      AttemptsStayNumbered(s, ls[..n], limit);
      RunsAreCoherent(s, ls[..n]);
      assert ls[n] in ls;
      StepKeepsNumbered(s.db, After(s, ls[..n]), ls[n], limit);
      StepKeepsRunning(After(s, ls[..n]), ls[n], limit);
    }
  }
}
