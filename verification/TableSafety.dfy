/**
 What every committed state of the tables satisfies over all runs: the wallet counts, the shapes of
 requests and relay rows, uniqueness of requests, and the timestamps.
 */
module TableSafety {
  import opened Tables
  import opened Lifecycle
  import opened Processor
  import opened ProcessTheorems
  import opened Protocol
  import opened Serializability

  /** The three labels that change the tables. */
  predicate WritesTables(l: Label) {
    l.RegisterWallet? || l.InsertRequest? || l.CommitTx?
  }

  lemma OnlyThreeStepsWrite(s: State, l: Label)
    requires Enabled(s, l) && !WritesTables(l)
    ensures Apply(s, l).db == s.db && Apply(s, l).reregistrations == s.reregistrations
    ensures Apply(s, l).staleInserts == s.staleInserts
  {
    hide Enabled, Apply;
    if Elsewhere(l) {
      ElsewhereTouchesNothing(s, l);
    } else {
      OpenTransactionsWriteNothing(s, l);
    }
  }

  lemma RegisterStepIs(s: State, l: Label)
    requires Enabled(s, l) && l.RegisterWallet?
    ensures Apply(s, l) == RegisteredAt(s, l.walletId, l.address)
  {
    hide RegisteredAt;
  }

  lemma InsertStepIs(s: State, l: Label)
    requires Enabled(s, l) && l.InsertRequest?
    ensures l.post in s.posts && s.posts[l.post].cleared && s.posts[l.post].walletId in s.db.wallets
    ensures l.id !in s.db.requests && IndexAllows(s.db, s.posts[l.post].walletId)
    ensures Apply(s, l) == InsertedAt(s, l.post, l.id)
  {
    hide InsertedAt;
  }

  // ---------------------------------------------------------------- wallet counts

  function CompletedOf(db: Db, walletId: WalletId): set<RequestId> {
    set r | r in db.requests && db.requests[r].walletId == walletId && db.requests[r].status == Completed
  }

  /** A wallet's count is its completed requests plus its repeated registrations. */
  ghost predicate Accounted(s: State) {
    && (forall w | w in s.db.wallets ::
          s.db.wallets[w].sponsorshipCount == |CompletedOf(s.db, w)| + ReregistrationsOf(s, w))
    && (forall w | w in s.reregistrations :: w in s.db.wallets)
  }

  lemma RegisterKeepsAccount(s: State, walletId: WalletId, address: nat)
    requires Accounted(s) && ForeignKeys(s.db)
    ensures Accounted(RegisteredAt(s, walletId, address))
  {
    hide At;
    var s' := RegisteredAt(s, walletId, address);
    forall w | w in s'.db.wallets
      ensures s'.db.wallets[w].sponsorshipCount == |CompletedOf(s'.db, w)| + ReregistrationsOf(s', w)
    {
      assert CompletedOf(s'.db, w) == CompletedOf(s.db, w);
      if w !in s.db.wallets {
        assert CompletedOf(s.db, w) == {};
      }
    }
  }

  lemma InsertKeepsAccount(s: State, post: PostId, id: RequestId)
    requires Accounted(s) && post in s.posts && id !in s.db.requests
    ensures Accounted(InsertedAt(s, post, id))
  {
    var s' := InsertedAt(s, post, id);
    forall w | w in s'.db.wallets
      ensures s'.db.wallets[w].sponsorshipCount == |CompletedOf(s'.db, w)| + ReregistrationsOf(s', w)
    {
      assert CompletedOf(s'.db, w) == CompletedOf(s.db, w);
    }
  }

  /** `ProcessEffects`, seen at a commit. */
  ghost predicate Effects(db: Db, db': Db, id: RequestId) {
    && id in db.requests
    && db'.requests.Keys == db.requests.Keys && db'.wallets.Keys == db.wallets.Keys
    && (forall r | r in db.requests && (r != id || Terminal(db.requests[r].status)) ::
          db'.requests[r] == db.requests[r] && RelaysOf(db'.relays, r) == RelaysOf(db.relays, r))
    && db'.requests[id].walletId == db.requests[id].walletId
    && (forall w | w in db.wallets ::
          db'.wallets[w] ==
            if w == db.requests[id].walletId && db.requests[id].status != Completed
              && db'.requests[id].status == Completed
            then Incremented(db.wallets[w]) else db.wallets[w])
  }

  lemma CommitHasEffects(db: Db, tx: Tx)
    requires TxCoherent(db, tx) && tx.pc.AtCommit?
    ensures Effects(db, Install(db, tx.id, tx.writes), tx.id)
  {
    CommitIsAtomic(db, tx);
    ProcessEffects(db, tx.id, tx.env);
  }

  lemma EffectsOnCompleted(db: Db, db': Db, id: RequestId, w: WalletId)
    requires Effects(db, db', id) && w in db.wallets
    ensures db'.wallets[w].sponsorshipCount - |CompletedOf(db', w)|
            == db.wallets[w].sponsorshipCount - |CompletedOf(db, w)|
  {
    if db.requests[id].walletId == w && db.requests[id].status != Completed && db'.requests[id].status == Completed {
      assert id !in CompletedOf(db, w);
      assert CompletedOf(db', w) == CompletedOf(db, w) + {id};
    } else {
      assert CompletedOf(db', w) == CompletedOf(db, w);
    }
  }

  lemma CommitKeepsAccount(s: State, worker: WorkerId)
    requires Accounted(s) && OpenRow(s, worker)
    requires TxCoherent(s.db, s.running[worker]) && s.running[worker].pc.AtCommit?
    ensures Accounted(Committed(s, worker))
  {
    var tx, s' := s.running[worker], Committed(s, worker);
    hide At, TxCoherent, Install;
    CommitHasEffects(s.db, tx);
    forall w | w in s'.db.wallets
      ensures s'.db.wallets[w].sponsorshipCount == |CompletedOf(s'.db, w)| + ReregistrationsOf(s', w)
    {
      EffectsOnCompleted(s.db, s'.db, tx.id, w);
    }
  }

  lemma StepKeepsAccount(s: State, l: Label)
    requires Accounted(s) && Coherent(s) && Enabled(s, l)
    ensures Accounted(Apply(s, l))
  {
    hide At, TxCoherent, ForeignKeys, Enabled, Apply;
    match l
    case RegisterWallet(walletId, address) =>
      RegisterStepIs(s, l);
      RegisterKeepsAccount(s, walletId, address);
    case InsertRequest(post, id) =>
      InsertStepIs(s, l);
      InsertKeepsAccount(s, post, id);
    case CommitTx(worker) =>
      CommitStepIs(s, l);
      CommitKeepsAccount(s, worker);
    case _ => OnlyThreeStepsWrite(s, l);
  }

  /** In every reachable state each wallet's count is exactly its completed requests plus its re-registrations. */
  lemma {:induction false} CountsAreExact(s: State, ls: seq<Label>)
    requires Quiet(s) && Accounted(s) && ValidRun(s, ls)
    ensures Accounted(After(s, ls))
    decreases |ls|
  {
    hide At, Accounted, Enabled, Apply;
    if ls != [] {
      CountsAreExact(s, ls[..|ls| - 1]);
      RunsAreCoherent(s, ls[..|ls| - 1]);
      StepKeepsAccount(After(s, ls[..|ls| - 1]), ls[|ls| - 1]);
    }
  }

  // ---------------------------------------------------------------- what is ever visible

  ghost predicate SoleRow(rows: map<RelayId, RelayTransaction>, status: RelayStatus) {
    |rows| == 1 && forall k | k in rows :: rows[k].status == status && rows[k].relayAttempt == 1
  }

  /** Only settled stories are visible: no half-way status, and at most one relay row, matching the ending. */
  ghost predicate Clean(db: Db) {
    forall r | r in db.requests ::
      var rows := RelaysOf(db.relays, r);
      match db.requests[r].status
      case Pending => rows == map[]
      case Rejected => rows == map[]
      case Completed => SoleRow(rows, Confirmed)
      case Failed => SoleRow(rows, RelayFailed)
      case Approved => false
      case Relayed => false
  }

  lemma CleanCommit(db: Db, id: RequestId, env: Env, w: Writes)
    requires Clean(db) && id in db.requests && WellShaped(id, SliceOf(db, id), env, w)
    requires w.relay.Some? ==> w.relay.value.id !in db.relays
    ensures Clean(Install(db, id, w))
  {
    var db' := Install(db, id, w);
    forall r | r in db'.requests
      ensures RelaysOf(db'.relays, r) == if r == id then RelaysAfter(SliceOf(db, id), w) else RelaysOf(db.relays, r)
    {
      InstallRelays(db, id, w, r);
    }
    if w.relay.Some? {
      assert RelaysOf(db.relays, id) == map[];
      assert RelaysOf(db'.relays, id) == map[w.relay.value.id := w.relay.value.row];
      assert |RelaysOf(db'.relays, id)| == 1;
    }
  }

  lemma CommitKeepsClean(db: Db, tx: Tx)
    requires Clean(db) && TxCoherent(db, tx) && tx.pc.AtCommit?
    ensures Clean(Install(db, tx.id, tx.writes))
  {
    CommitIsAtomic(db, tx);
    CleanCommit(db, tx.id, tx.env, tx.writes);
  }

  lemma InsertKeepsClean(db: Db, id: RequestId, row: SponsorshipRequest)
    requires Clean(db) && ForeignKeys(db) && id !in db.requests && row.status == Pending
    ensures Clean(db.(requests := db.requests[id := row]))
  {
    assert RelaysOf(db.relays, id) == map[];
  }

  lemma RegisterKeepsClean(s: State, walletId: WalletId, address: nat)
    requires Clean(s.db)
    ensures Clean(RegisteredAt(s, walletId, address).db)
  {
  }

  lemma StepKeepsClean(s: State, l: Label)
    requires Clean(s.db) && Coherent(s) && Enabled(s, l)
    ensures Clean(Apply(s, l).db)
  {
    hide At, TxCoherent, ForeignKeys, Clean, Enabled, Apply;
    match l
    case RegisterWallet(walletId, address) =>
      RegisterStepIs(s, l);
      RegisterKeepsClean(s, walletId, address);
    case InsertRequest(post, id) =>
      InsertStepIs(s, l);
      InsertKeepsClean(s.db, id, NewRequest(s.posts[post].walletId, s.clock));
    case CommitTx(worker) =>
      CommitStepIs(s, l);
      CommitKeepsClean(s.db, s.running[worker]);
    case _ => OnlyThreeStepsWrite(s, l);
  }

  /**
   From an installation with no requests, no committed state ever shows an approved or relayed
   request or a queued or submitted relay row, and each request has at most one relay row.
   */
  lemma {:induction false} OnlySettledStoriesAreVisible(s: State, ls: seq<Label>)
    requires Quiet(s) && Clean(s.db) && ValidRun(s, ls)
    ensures Clean(After(s, ls).db)
    ensures forall k | k in After(s, ls).db.relays :: After(s, ls).db.relays[k].status in {Confirmed, RelayFailed}
    decreases |ls|
  {
    hide At, Enabled, Apply;
    RunsAreCoherent(s, ls);
    if ls != [] {
      OnlySettledStoriesAreVisible(s, ls[..|ls| - 1]);
      RunsAreCoherent(s, ls[..|ls| - 1]);
      StepKeepsClean(After(s, ls[..|ls| - 1]), ls[|ls| - 1]);
    }
    var db := After(s, ls).db;
    forall k | k in db.relays
      ensures db.relays[k].status in {Confirmed, RelayFailed}
    {
      var r := db.relays[k].sponsorshipRequestId;
      assert k in RelaysOf(db.relays, r);
    }
  }

  // ---------------------------------------------------------------- endings are final

  ghost predicate SameStory(db: Db, db': Db, r: RequestId) {
    r in db.requests && r in db'.requests && db'.requests[r] == db.requests[r]
      && RelaysOf(db'.relays, r) == RelaysOf(db.relays, r)
  }

  lemma CommitKeepsEndings(db: Db, tx: Tx, r: RequestId)
    requires TxCoherent(db, tx) && tx.pc.AtCommit? && r in db.requests && Terminal(db.requests[r].status)
    ensures SameStory(db, Install(db, tx.id, tx.writes), r)
  {
    hide At, TxCoherent, Install;
    CommitHasEffects(db, tx);
  }

  lemma StepKeepsEndings(s: State, l: Label, r: RequestId)
    requires Coherent(s) && Enabled(s, l) && r in s.db.requests && Terminal(s.db.requests[r].status)
    ensures SameStory(s.db, Apply(s, l).db, r)
  {
    hide At, TxCoherent, ForeignKeys, Enabled, Apply;
    match l
    case RegisterWallet(_, _) => RegisterStepIs(s, l);
    case InsertRequest(_, _) => InsertStepIs(s, l);
    case CommitTx(worker) =>
      CommitStepIs(s, l);
      CommitKeepsEndings(s.db, s.running[worker], r);
    case _ => OnlyThreeStepsWrite(s, l);
  }

  /** Once a request is rejected, completed or failed, no later step changes it or its relay rows. */
  lemma {:induction false} EndingsAreFinal(s: State, ls: seq<Label>, n: nat, r: RequestId)
    requires Quiet(s) && ValidRun(s, ls) && n <= |ls| && ValidRun(s, ls[..n])
    requires r in After(s, ls[..n]).db.requests && Terminal(After(s, ls[..n]).db.requests[r].status)
    ensures SameStory(After(s, ls[..n]).db, After(s, ls).db, r)
    decreases |ls|
  {
    hide At, Enabled, Apply;
    if n == |ls| {
      assert ls[..n] == ls;
    } else {
      var m := |ls| - 1;
      assert ls[..m][..n] == ls[..n];
      EndingsAreFinal(s, ls[..m], n, r);
      RunsAreCoherent(s, ls[..m]);
      StepKeepsEndings(After(s, ls[..m]), ls[m], r);
    }
  }

  // ---------------------------------------------------------------- one request per wallet

  /** A request that still stands: neither failed nor rejected. */
  predicate Standing(status: SponsorshipStatus) {
    status !in {Failed, Rejected}
  }

  ghost predicate AtMostOne(db: Db, counts: SponsorshipStatus -> bool) {
    forall q, r | q in db.requests && r in db.requests && db.requests[q].walletId == db.requests[r].walletId
                  && counts(db.requests[q].status) && counts(db.requests[r].status) :: q == r
  }

  /** A commit adds no request and makes none livelier: what stands or is in progress after it was so before. */
  lemma CommitRevivesNothing(db: Db, tx: Tx)
    requires TxCoherent(db, tx) && tx.pc.AtCommit?
    ensures Install(db, tx.id, tx.writes).requests.Keys == db.requests.Keys
    ensures forall r | r in db.requests ::
              var row, row' := db.requests[r], Install(db, tx.id, tx.writes).requests[r];
              && row'.walletId == row.walletId
              && (Standing(row'.status) ==> Standing(row.status))
                 && (InProgress(row'.status) ==> InProgress(row.status))
  {
    hide At, Process, ProcessSlice;
    CommitIsAtomic(db, tx);
  }

  lemma CommitKeepsAtMostOne(db: Db, tx: Tx)
    requires TxCoherent(db, tx) && tx.pc.AtCommit?
    ensures AtMostOne(db, InProgress) ==> AtMostOne(Install(db, tx.id, tx.writes), InProgress)
    ensures AtMostOne(db, Standing) ==> AtMostOne(Install(db, tx.id, tx.writes), Standing)
  {
    CommitRevivesNothing(db, tx);
    hide At, TxCoherent, Install, InProgress, Standing;
  }

  /**
   An insert keeps one standing request per wallet exactly when the wallet is still eligible at
   that moment. The index alone guarantees only one request in progress.
   */
  lemma InsertKeepsAtMostOneExactly(s: State, post: PostId, id: RequestId)
    requires Enabled(s, InsertRequest(post, id))
    ensures AtMostOne(s.db, InProgress) ==> AtMostOne(InsertedAt(s, post, id).db, InProgress)
    ensures AtMostOne(s.db, Standing) ==>
              (AtMostOne(InsertedAt(s, post, id).db, Standing) <==> Eligible(s.db, s.posts[post].walletId))
  {
    var db', walletId := InsertedAt(s, post, id).db, s.posts[post].walletId;
    if !Eligible(s.db, walletId) {
      var r :| r in s.db.requests && s.db.requests[r].walletId == walletId
               && (InProgress(s.db.requests[r].status) || s.db.requests[r].status == Completed);
      assert r in db'.requests && id in db'.requests && r != id;
      assert Standing(db'.requests[r].status) && Standing(db'.requests[id].status);
    }
  }

  lemma InProgressIsStanding(db: Db)
    requires AtMostOne(db, Standing)
    ensures AtMostOne(db, InProgress)
  {
  }

  lemma RegisterKeepsAtMostOne(s: State, walletId: WalletId, address: nat)
    ensures AtMostOne(s.db, InProgress) ==> AtMostOne(RegisteredAt(s, walletId, address).db, InProgress)
    ensures AtMostOne(s.db, Standing) ==> AtMostOne(RegisteredAt(s, walletId, address).db, Standing)
  {
  }

  lemma StepKeepsAtMostOne(s: State, l: Label)
    requires Coherent(s) && Enabled(s, l) && AtMostOne(s.db, InProgress)
    requires s.staleInserts == 0 ==> AtMostOne(s.db, Standing)
    ensures AtMostOne(Apply(s, l).db, InProgress)
    ensures Apply(s, l).staleInserts == 0 ==> AtMostOne(Apply(s, l).db, Standing)
  {
    hide At, TxCoherent, ForeignKeys, AtMostOne, Enabled, Apply;
    match l
    case RegisterWallet(walletId, address) =>
      RegisterStepIs(s, l);
      RegisterKeepsAtMostOne(s, walletId, address);
    case InsertRequest(post, id) =>
      InsertStepIs(s, l);
      InsertKeepsAtMostOneExactly(s, post, id);
    case CommitTx(worker) =>
      CommitStepIs(s, l);
      CommitKeepsAtMostOne(s.db, s.running[worker]);
    case _ => OnlyThreeStepsWrite(s, l);
  }

  /**
   Over every run at most one request of a wallet is in progress; and if every insert found the
   wallet still eligible, at most one of a wallet's requests is anything but failed or rejected, so
   a wallet has at most one completed request ever.
   */
  lemma {:induction false} OneRequestPerWallet(s: State, ls: seq<Label>)
    requires Quiet(s) && AtMostOne(s.db, Standing) && ValidRun(s, ls)
    ensures AtMostOne(After(s, ls).db, InProgress)
    ensures After(s, ls).staleInserts == 0 ==> AtMostOne(After(s, ls).db, Standing)
    decreases |ls|
  {
    hide Coherent, AtMostOne, Enabled, Apply;
    if ls == [] {
      InProgressIsStanding(s.db);
    } else {
      OneRequestPerWallet(s, ls[..|ls| - 1]);
      RunsAreCoherent(s, ls[..|ls| - 1]);
      StepKeepsAtMostOne(After(s, ls[..|ls| - 1]), ls[|ls| - 1]);
    }
  }

  /** At every point of the run at most one of a wallet's requests stands. */
  ghost predicate OneStandingThroughout(s: State, ls: seq<Label>)
    requires ValidRun(s, ls)
    decreases |ls|
  {
    && AtMostOne(After(s, ls).db, Standing)
    && (ls == [] || OneStandingThroughout(s, ls[..|ls| - 1]))
  }

  lemma InsertCountsStale(s: State, l: Label)
    requires Enabled(s, l) && l.InsertRequest? && AtMostOne(s.db, Standing)
    ensures AtMostOne(Apply(s, l).db, Standing) <==> Apply(s, l).staleInserts == s.staleInserts
    ensures s.staleInserts <= Apply(s, l).staleInserts
  {
    hide AtMostOne, Enabled, Apply, Eligible;
    InsertStepIs(s, l);
    assert Enabled(s, InsertRequest(l.post, l.id));
    InsertKeepsAtMostOneExactly(s, l.post, l.id);
  }

  /** A step keeps one standing request per wallet exactly when it is no stale insert. */
  lemma StepKeepsOneStandingExactly(s: State, l: Label)
    requires Coherent(s) && Enabled(s, l) && AtMostOne(s.db, Standing)
    ensures AtMostOne(Apply(s, l).db, Standing) <==> Apply(s, l).staleInserts == s.staleInserts
    ensures s.staleInserts <= Apply(s, l).staleInserts
  {
    hide At, TxCoherent, ForeignKeys, AtMostOne, Enabled, Apply;
    match l
    case RegisterWallet(walletId, address) =>
      RegisterStepIs(s, l);
      RegisterKeepsAtMostOne(s, walletId, address);
    case InsertRequest(_, _) => InsertCountsStale(s, l);
    case CommitTx(worker) =>
      CommitStepIs(s, l);
      CommitKeepsAtMostOne(s.db, s.running[worker]);
    case _ => OnlyThreeStepsWrite(s, l);
  }

  lemma StaleInsertsStay(s: State, l: Label)
    requires Enabled(s, l)
    ensures s.staleInserts <= Apply(s, l).staleInserts
  {
    hide Enabled, Apply, Eligible;
    if l.InsertRequest? {
      InsertStepIs(s, l);
    } else if WritesTables(l) {
      OtherWritesInsertNothing(s, l);
    } else {
      OnlyThreeStepsWrite(s, l);
    }
  }

  /** Over every run: at each of its points one standing request per wallet, exactly when no insert came too late. */
  lemma {:induction false} OneStandingExactly(s: State, ls: seq<Label>)
    requires Quiet(s) && AtMostOne(s.db, Standing) && ValidRun(s, ls)
    ensures OneStandingThroughout(s, ls) <==> After(s, ls).staleInserts == 0
    decreases |ls|
  {
    hide Coherent, AtMostOne, Enabled, Apply;
    if ls != [] {
      var n := |ls| - 1;
      var before := After(s, ls[..n]);
      OneStandingExactly(s, ls[..n]);
      RunsAreCoherent(s, ls[..n]);
      StaleInsertsStay(before, ls[n]);
      if OneStandingThroughout(s, ls[..n]) {
        assert AtMostOne(before.db, Standing);
        StepKeepsOneStandingExactly(before, ls[n]);
      }
    }
  }

  // ---------------------------------------------------------------- POSTs in one piece

  /** Every insert directly follows the two queries of its own POST. */
  ghost predicate AtomicPosts(ls: seq<Label>) {
    forall n | 0 <= n < |ls| && ls[n].InsertRequest? ::
      && n >= 2 && ls[n - 1] == CheckNoCompleted(ls[n].post)
      && ls[n - 2].CheckNoActive? && ls[n - 2].post == ls[n].post
  }

  lemma ChecksMakeEligible(s: State, post: PostId, walletId: WalletId)
    requires Enabled(s, CheckNoActive(post, walletId))
    requires Enabled(Apply(s, CheckNoActive(post, walletId)), CheckNoCompleted(post))
    ensures var t := Apply(Apply(s, CheckNoActive(post, walletId)), CheckNoCompleted(post));
      t.db == s.db && t.posts[post].walletId == walletId && Eligible(t.db, walletId)
  {
  }

  /** POSTs that are one atomic step never insert for a wallet that is not eligible any more. */
  lemma {:induction false} AtomicPostsAreNeverStale(s: State, ls: seq<Label>)
    requires s.staleInserts == 0 && ValidRun(s, ls) && AtomicPosts(ls)
    ensures After(s, ls).staleInserts == 0
    decreases |ls|
  {
    if ls != [] {
      hide Enabled, Apply, Eligible;
      var n := |ls| - 1;
      var before, l := After(s, ls[..n]), ls[n];
      assert AtomicPosts(ls[..n]);
      AtomicPostsAreNeverStale(s, ls[..n]);
      if l.InsertRequest? {
        var m := n - 2;
        assert ls[..n][..n - 1] == ls[..n - 1] && ls[..n - 1][..m] == ls[..m];
        ChecksMakeEligible(After(s, ls[..m]), l.post, ls[m].walletId);
        InsertStepIs(before, l);
      } else if WritesTables(l) {
        OtherWritesInsertNothing(before, l);
      } else {
        OnlyThreeStepsWrite(before, l);
      }
    }
  }

  lemma OtherWritesInsertNothing(s: State, l: Label)
    requires Enabled(s, l) && (l.RegisterWallet? || l.CommitTx?)
    ensures Apply(s, l).staleInserts == s.staleInserts
  {
    hide Install, Register;
  }

  /** So with POSTs as atomic steps at most one of a wallet's requests ever stands, over every run. */
  lemma AtomicPostsKeepOnePerWallet(s: State, ls: seq<Label>)
    requires Quiet(s) && AtMostOne(s.db, Standing) && ValidRun(s, ls) && AtomicPosts(ls)
    ensures AtMostOne(After(s, ls).db, Standing)
  {
    hide AtMostOne, Enabled, Apply;
    AtomicPostsAreNeverStale(s, ls);
    OneRequestPerWallet(s, ls);
  }
}
