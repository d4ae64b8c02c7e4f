/**
 The one table that the limiters and the deduplication hook share: a run of served requests over
 many keys, seen key by key.
 */
module SharedTable {
  import opened Wrappers
  import opened RateLimit
  import Limiter = RateLimitTheorems
  import Replay = ReplayProtection

  /** What one request does to the table: a limiter's check and count, or the hook's judgement. */
  datatype Access =
    | Limited(key: Limiter.Key, request: Limiter.Request)
    | Judged(compositeKey: string, now: Time)

  ghost predicate Accesses(config: Config, rows: seq<Row>, rows': seq<Row>, x: Access) {
    match x
    case Limited(key, r) =>
      Served(rows, rows', key.identifier, key.kind, LimitsOf(config, key.kind), r.checkedAt, r.countedAt, r.blockedAt)
    case Judged(compositeKey, now) =>
      Replay.Guarded(rows, rows', compositeKey, now, Replay.Judge(Lookup(rows, compositeKey, Ip), now))
  }

  /** The tables between the accesses, from an empty one on. */
  ghost predicate IsRun(config: Config, tables: seq<seq<Row>>, xs: seq<Access>) {
    && |tables| == |xs| + 1 && tables[0] == []
    && forall i | 0 <= i < |xs| :: Accesses(config, tables[i], tables[i + 1], xs[i])
  }

  /** One key's limited requests, in their order. */
  function RequestsOf(xs: seq<Access>, key: Limiter.Key): seq<Limiter.Request> {
    if xs == [] then []
    else
      var before, x := RequestsOf(xs[..|xs| - 1], key), xs[|xs| - 1];
      if x.Limited? && x.key == key then before + [x.request] else before
  }

  /** One composite key's judged requests, in their order. */
  function TimesOf(xs: seq<Access>, compositeKey: string): seq<Time> {
    if xs == [] then []
    else
      var before, x := TimesOf(xs[..|xs| - 1], compositeKey), xs[|xs| - 1];
      if x.Judged? && x.compositeKey == compositeKey then before + [x.now] else before
  }

  /** No access uses the key for the other purpose. */
  predicate OnlyLimited(xs: seq<Access>, key: Limiter.Key) {
    forall x | x in xs && x.Judged? :: Limiter.Key(x.compositeKey, Ip) != key
  }

  predicate OnlyJudged(xs: seq<Access>, compositeKey: string) {
    forall x | x in xs && x.Limited? :: x.key != Limiter.Key(compositeKey, Ip)
  }

  lemma AccessKeepsUnique(config: Config, rows: seq<Row>, rows': seq<Row>, x: Access)
    requires UniqueKeys(rows) && Accesses(config, rows, rows', x)
    ensures UniqueKeys(rows')
  {
  }

  lemma LimitedStep(config: Config, rows: seq<Row>, rows': seq<Row>, x: Access, key: Limiter.Key,
                    rs: seq<Limiter.Request>)
    requires Accesses(config, rows, rows', x) && (x.Judged? ==> Limiter.Key(x.compositeKey, Ip) != key)
    requires Lookup(rows, key.identifier, key.kind) == Limiter.RowAfter(key, LimitsOf(config, key.kind), rs)
    ensures Lookup(rows', key.identifier, key.kind)
            == Limiter.RowAfter(key, LimitsOf(config, key.kind),
                                if x.Limited? && x.key == key then rs + [x.request] else rs)
  {
    hide UniqueKeys, Lookup;
    if x.Judged? {
      LookupHasKey(rows, x.compositeKey, Ip);
    } else {
      LookupHasKey(rows, x.key.identifier, x.key.kind);
      assert (rs + [x.request])[..|rs|] == rs;
    }
  }

  lemma NothingYet(config: Config, key: Limiter.Key)
    ensures UniqueKeys([]) && Lookup([], key.identifier, key.kind) == None
    ensures Limiter.RowAfter(key, LimitsOf(config, key.kind), []) == None && Replay.RowAfter(key.identifier, []) == None
  {
  }

  /**
   Over every run of requests over any keys, the table has one row for each key, and a limiter's row is
   the one that this key's requests alone would have left; so all that holds of one key's run holds in
   the shared table.
   */
  lemma {:induction false} EachLimiterStandsAlone(config: Config, tables: seq<seq<Row>>, xs: seq<Access>,
                                                  key: Limiter.Key)
    requires IsRun(config, tables, xs) && OnlyLimited(xs, key)
    ensures UniqueKeys(tables[|xs|])
    ensures Lookup(tables[|xs|], key.identifier, key.kind)
            == Limiter.RowAfter(key, LimitsOf(config, key.kind), RequestsOf(xs, key))
    decreases |xs|
  {
    hide Accesses, Lookup, UniqueKeys, Limiter.RowAfter;
    if xs == [] {
      NothingYet(config, key);
    } else {
      var n := |xs| - 1;
      assert xs[n] in xs;
      EachLimiterStandsAlone(config, tables[..|xs|], xs[..n], key);
      AccessKeepsUnique(config, tables[n], tables[n + 1], xs[n]);
      LimitedStep(config, tables[n], tables[n + 1], xs[n], key, RequestsOf(xs[..n], key));
    }
  }

  /** Client addresses are held to the limits configured for them, wallets to theirs: window by window. */
  lemma ConfiguredLimitsHold(config: Config, tables: seq<seq<Row>>, xs: seq<Access>, key: Limiter.Key, k: nat)
    requires IsRun(config, tables, xs) && OnlyLimited(xs, key) && Limiter.InOrder(RequestsOf(xs, key))
    requires config.ip.max > 0 && config.wallet.max > 0
    ensures var limits := if key.kind == Ip then config.ip else config.wallet;
      var a := Limiter.Accepted(key, limits, RequestsOf(xs, key));
      && Lookup(tables[|xs|], key.identifier, key.kind) == Limiter.RowFor(key, limits, a)
      && (k < |a| ==>
            var o := Limiter.Opener(limits, a, k);
            && k - o + 1 <= limits.max
            && (o > 0 ==> a[o].countedAt >= a[Limiter.Opener(limits, a, o - 1)].countedAt + limits.windowMs))
  {
    hide Lookup, Limiter.RowAfter, Limiter.Accepted, Limiter.RowFor, Limiter.Opener, IsRun, UniqueKeys, OnlyLimited;
    var limits := if key.kind == Ip then config.ip else config.wallet;
    var a := Limiter.Accepted(key, limits, RequestsOf(xs, key));
    EachLimiterStandsAlone(config, tables, xs, key);
    Limiter.RowRefinesHistory(key, limits, RequestsOf(xs, key));
    if k < |a| {
      Limiter.WindowsAreBounded(key, limits, RequestsOf(xs, key), k);
    }
  }

  lemma JudgedStep(config: Config, rows: seq<Row>, rows': seq<Row>, x: Access, compositeKey: string, times: seq<Time>)
    requires Accesses(config, rows, rows', x) && (x.Limited? ==> x.key != Limiter.Key(compositeKey, Ip))
    requires Lookup(rows, compositeKey, Ip) == Replay.RowAfter(compositeKey, times)
    ensures Lookup(rows', compositeKey, Ip)
            == Replay.RowAfter(compositeKey,
                               if x.Judged? && x.compositeKey == compositeKey then times + [x.now] else times)
  {
    hide UniqueKeys, Lookup;
    if x.Limited? {
      LookupHasKey(rows, x.key.identifier, x.key.kind);
    } else {
      LookupHasKey(rows, x.compositeKey, Ip);
      assert (times + [x.now])[..|times|] == times;
    }
  }

  /** The same for the hook's rows. */
  lemma {:induction false} EachReplayKeyStandsAlone(config: Config, tables: seq<seq<Row>>, xs: seq<Access>,
                                                    compositeKey: string)
    requires IsRun(config, tables, xs) && OnlyJudged(xs, compositeKey)
    ensures Lookup(tables[|xs|], compositeKey, Ip) == Replay.RowAfter(compositeKey, TimesOf(xs, compositeKey))
    decreases |xs|
  {
    hide Accesses, Lookup, Replay.RowAfter;
    if xs == [] {
      NothingYet(config, Limiter.Key(compositeKey, Ip));
    } else {
      var n := |xs| - 1;
      assert xs[n] in xs;
      EachReplayKeyStandsAlone(config, tables[..|xs|], xs[..n], compositeKey);
      JudgedStep(config, tables[n], tables[n + 1], xs[n], compositeKey, TimesOf(xs[..n], compositeKey));
    }
  }
}
