/**
 The deduplication hook with requests that overlap: its two queries and its write are three steps,
 and any other request may move between them.
 */
module ConcurrentReplay {
  import opened Wrappers
  import opened RateLimit
  import opened ReplayProtection
  import RateLimitTheorems
  import SlidingWindow
  import L = ConcurrentLimiter

  /** `Cleared` has found no recent row; `Located` has looked for any row of its key. */
  datatype Stage = Arrived | Cleared | Located(read: Option<L.RowId>)

  /** A request on its way: the clock reading it took, and how many of its key had been accepted at its first query. */
  datatype Flight = Flight(compositeKey: string, now: Time, since: nat, stage: Stage)

  datatype State = State(
    rows: L.Table,
    clock: Time,
    flights: map<L.FlightId, Flight>,
    accepted: map<string, seq<Time>>
  )

  datatype Label =
    | Tick
    | Arrive(f: L.FlightId, compositeKey: string)
    | Query(f: L.FlightId)
    | Locate(f: L.FlightId, pick: Option<L.RowId>)
    | Stamp(f: L.FlightId, fresh_: L.RowId)

  /** The clock readings of a key's accepted requests, in the order in which they were written. */
  function AcceptedOf(s: State, compositeKey: string): seq<Time> {
    if compositeKey in s.accepted then s.accepted[compositeKey] else []
  }

  function RowKey(compositeKey: string): RateLimitTheorems.Key {
    RateLimitTheorems.Key(compositeKey, Ip)
  }

  predicate AnyRecent(rows: L.Table, compositeKey: string, now: Time) {
    exists id | id in rows :: IsRecent(rows[id], compositeKey, now)
  }

  predicate NoRow(rows: L.Table, compositeKey: string) {
    forall id | id in rows :: !HasKey(rows[id], compositeKey, Ip)
  }

  predicate Enabled(s: State, l: Label) {
    match l
    case Tick => true
    case Arrive(f, _) => f !in s.flights
    case Query(f) => f in s.flights && s.flights[f].stage.Arrived?
    case Locate(f, pick) =>
      f in s.flights && s.flights[f].stage.Cleared? && L.Answers(s.rows, RowKey(s.flights[f].compositeKey), pick)
    case Stamp(f, fresh_) =>
      && f in s.flights && s.flights[f].stage.Located?
      && (match s.flights[f].stage.read
          case None => fresh_ !in s.rows
          case Some(id) => id in s.rows)
  }

  function RowsStamped(rows: L.Table, flight: Flight, fresh_: L.RowId): L.Table
    requires flight.stage.Located? && (flight.stage.read.Some? ==> flight.stage.read.value in rows)
  {
    match flight.stage.read
    case None => rows[fresh_ := Row(flight.compositeKey, Ip, 1, flight.now, None)]
    case Some(id) => rows[id := rows[id].(windowStart := flight.now, requestCount := 1)]
  }

  function StampedAt(s: State, f: L.FlightId, fresh_: L.RowId): State
    requires Enabled(s, Stamp(f, fresh_))
  {
    var flight := s.flights[f];
    s.(rows := RowsStamped(s.rows, flight, fresh_),
       flights := s.flights - {f},
       accepted := s.accepted[flight.compositeKey := AcceptedOf(s, flight.compositeKey) + [flight.now]])
  }

  function Moved(s: State, f: L.FlightId, flight: Flight): State {
    s.(flights := s.flights[f := flight])
  }

  function Apply(s: State, l: Label): State
    requires Enabled(s, l)
  {
    match l
    case Tick => s.(clock := s.clock + 1)
    case Arrive(f, compositeKey) => Moved(s, f, Flight(compositeKey, s.clock, 0, Arrived))
    case Query(f) =>
      var flight := s.flights[f];
      if AnyRecent(s.rows, flight.compositeKey, flight.now) then s.(flights := s.flights - {f})
      else Moved(s, f, flight.(since := |AcceptedOf(s, flight.compositeKey)|, stage := Cleared))
    case Locate(f, pick) => Moved(s, f, s.flights[f].(stage := Located(pick)))
    case Stamp(f, fresh_) => StampedAt(s, f, fresh_)
  }

  ghost predicate ValidRun(ls: seq<Label>)
    decreases |ls|, 0
  {
    ls == [] || (var n := |ls| - 1; ValidRun(ls[..n]) && Enabled(After(ls[..n]), ls[n]))
  }

  const EMPTY := State(map[], 0, map[], map[])

  ghost function After(ls: seq<Label>): State
    requires ValidRun(ls)
    decreases |ls|, 1
  {
    if ls == [] then EMPTY else Apply(After(ls[..|ls| - 1]), ls[|ls| - 1])
  }

  // ---------------------------------------------------------------- what every interleaving keeps

  /** While no request of its key has been accepted since its first query, what it found is still so. */
  predicate FlightInv(s: State, flight: Flight) {
    var a := AcceptedOf(s, flight.compositeKey);
    && (flight.stage.Located? && flight.stage.read.Some? ==>
          flight.stage.read.value in s.rows && HasKey(s.rows[flight.stage.read.value], flight.compositeKey, Ip))
    && flight.since <= |a|
    && (!flight.stage.Arrived? && flight.since == |a| ==>
          && !AnyRecent(s.rows, flight.compositeKey, flight.now)
          && (flight.stage.Located? && flight.stage.read.None? ==> NoRow(s.rows, flight.compositeKey)))
  }

  ghost predicate Inv(s: State) {
    forall f | f in s.flights :: FlightInv(s, s.flights[f])
  }

  lemma MovingKeepsInv(s: State, s': State, f: L.FlightId)
    requires Inv(s) && s'.rows == s.rows && s'.accepted == s.accepted
    requires forall g | g in s'.flights && g != f :: g in s.flights && s'.flights[g] == s.flights[g]
    requires f in s'.flights ==> FlightInv(s', s'.flights[f])
    ensures Inv(s')
  {
    hide AnyRecent, NoRow;
    forall g | g in s'.flights
      ensures FlightInv(s', s'.flights[g])
    {
      if g != f { assert FlightInv(s, s.flights[g]); }
    }
  }

  lemma ReadingStepKeepsInv(s: State, l: Label)
    requires Inv(s) && Enabled(s, l) && !l.Stamp?
    ensures Inv(Apply(s, l))
  {
    if l.Tick? {
      hide FlightInv;
      forall f | f in s.flights
        ensures FlightInv(Apply(s, l), s.flights[f])
      {
        TickKeepsFlight(s, s.flights[f]);
      }
    } else {
      if !l.Arrive? { assert FlightInv(s, s.flights[l.f]); }
      hide AnyRecent, Inv;
      MovingKeepsInv(s, Apply(s, l), l.f);
    }
  }

  lemma TickKeepsFlight(s: State, flight: Flight)
    requires FlightInv(s, flight)
    ensures FlightInv(s.(clock := s.clock + 1), flight)
  {
    assert AcceptedOf(s.(clock := s.clock + 1), flight.compositeKey) == AcceptedOf(s, flight.compositeKey);
  }

  /** What a stamp leaves of the rows: every row stays, of its key, and other keys' rows are untouched. */
  ghost predicate StampsOnly(rows: L.Table, rows': L.Table, compositeKey: string) {
    && (forall id | id in rows ::
          id in rows' && rows'[id].identifier == rows[id].identifier
            && rows'[id].identifierType == rows[id].identifierType)
    && (forall id | id in rows && !HasKey(rows[id], compositeKey, Ip) :: rows'[id] == rows[id])
    && (forall id | id in rows' && id !in rows :: HasKey(rows'[id], compositeKey, Ip))
  }

  lemma StampStampsOnly(s: State, f: L.FlightId, fresh_: L.RowId)
    requires Inv(s) && Enabled(s, Stamp(f, fresh_))
    ensures StampsOnly(s.rows, StampedAt(s, f, fresh_).rows, s.flights[f].compositeKey)
  {
    assert FlightInv(s, s.flights[f]);
  }

  lemma StampKeepsInv(s: State, f: L.FlightId, fresh_: L.RowId)
    requires Inv(s) && Enabled(s, Stamp(f, fresh_))
    ensures Inv(StampedAt(s, f, fresh_))
  {
    var s' := StampedAt(s, f, fresh_);
    StampStampsOnly(s, f, fresh_);
    hide RowsStamped;
    forall g | g in s'.flights
      ensures FlightInv(s', s'.flights[g])
    {
      assert FlightInv(s, s.flights[g]);
    }
  }

  lemma {:induction false} RunsKeepInv(ls: seq<Label>)
    requires ValidRun(ls)
    ensures Inv(After(ls))
    decreases |ls|
  {
    if ls != [] {
      var n := |ls| - 1;
      RunsKeepInv(ls[..n]);
      hide Inv, Enabled;
      if ls[n].Stamp? {
        StampKeepsInv(After(ls[..n]), ls[n].f, ls[n].fresh_);
      } else {
        ReadingStepKeepsInv(After(ls[..n]), ls[n]);
      }
    }
  }

  // ---------------------------------------------------------------- when the hook is right

  function RowForTimes(compositeKey: string, a: seq<Time>): Option<Row> {
    if a == [] then None else Some(Row(compositeKey, Ip, 1, a[|a| - 1], None))
  }

  /** Accepted requests are five seconds apart, and the one row of the key carries the last one's time. */
  ghost predicate Faithful(s: State, compositeKey: string) {
    var a := AcceptedOf(s, compositeKey);
    Spaced(a) && L.Holds(s.rows, RowKey(compositeKey), RowForTimes(compositeKey, a))
  }

  /**
   What a request would have to test just before it writes: that the last accepted request is still
   five seconds back, and that its key has a row now exactly if it found one.
   */
  predicate Fresh(a: seq<Time>, flight: Flight)
    requires flight.stage.Located?
  {
    && (a != [] ==> a[|a| - 1] + REPLAY_WINDOW_MS <= flight.now)
    && (flight.stage.read.None? <==> a == [])
  }

  lemma SpacedSnoc(a: seq<Time>, now: Time)
    requires Spaced(a)
    ensures Spaced(a + [now]) <==> (a != [] ==> a[|a| - 1] + REPLAY_WINDOW_MS <= now)
  {
    var a' := a + [now];
    if a != [] {
      assert a'[|a| - 1] == a[|a| - 1] && a'[|a|] == now;
      forall i | 0 <= i < |a|
        ensures a[i] <= a[|a| - 1]
      {
        if i < |a| - 1 { assert a[i] + REPLAY_WINDOW_MS <= a[|a| - 1]; }
      }
    }
  }

  lemma StampHoldsExactly(rows: L.Table, flight: Flight, fresh_: L.RowId, a: seq<Time>)
    requires flight.stage.Located? && (flight.stage.read.None? ==> fresh_ !in rows)
    requires flight.stage.read.Some? ==>
               flight.stage.read.value in rows && HasKey(rows[flight.stage.read.value], flight.compositeKey, Ip)
    requires L.Holds(rows, RowKey(flight.compositeKey), RowForTimes(flight.compositeKey, a))
    ensures L.Holds(RowsStamped(rows, flight, fresh_), RowKey(flight.compositeKey),
                    RowForTimes(flight.compositeKey, a + [flight.now]))
            <==> (flight.stage.read.None? <==> a == [])
  {
    var key, rows' := RowKey(flight.compositeKey), RowsStamped(rows, flight, fresh_);
    if a != [] {
      var id :| id in rows && SlidingWindow.OfKey(rows[id], key)
                && (forall j | j in rows && SlidingWindow.OfKey(rows[j], key) :: j == id)
                && rows[id] == RowForTimes(flight.compositeKey, a).value;
      if flight.stage.read.None? {
        assert SlidingWindow.OfKey(rows'[id], key) && SlidingWindow.OfKey(rows'[fresh_], key) && id != fresh_;
      } else {
        assert flight.stage.read.value == id;
        assert rows'[id] == RowForTimes(flight.compositeKey, a + [flight.now]).value;
      }
    } else if flight.stage.read.None? {
      assert rows'[fresh_] == RowForTimes(flight.compositeKey, a + [flight.now]).value;
    }
  }

  /** One stamp under any interleaving: what was right before is right after exactly when it is fresh. */
  lemma StampKeepsFaithfulExactly(s: State, f: L.FlightId, fresh_: L.RowId)
    requires Inv(s) && Enabled(s, Stamp(f, fresh_)) && Faithful(s, s.flights[f].compositeKey)
    ensures Faithful(StampedAt(s, f, fresh_), s.flights[f].compositeKey)
            <==> Fresh(AcceptedOf(s, s.flights[f].compositeKey), s.flights[f])
  {
    var flight := s.flights[f];
    var a := AcceptedOf(s, flight.compositeKey);
    assert FlightInv(s, flight);
    hide Inv, L.Holds, RowForTimes, RowsStamped, Spaced, AnyRecent, NoRow;
    SpacedSnoc(a, flight.now);
    StampHoldsExactly(s.rows, flight, fresh_, a);
  }

  lemma StampKeepsOtherKeys(s: State, f: L.FlightId, fresh_: L.RowId, compositeKey: string)
    requires Inv(s) && Enabled(s, Stamp(f, fresh_)) && compositeKey != s.flights[f].compositeKey
    ensures Faithful(StampedAt(s, f, fresh_), compositeKey) <==> Faithful(s, compositeKey)
  {
    StampStampsOnly(s, f, fresh_);
    hide Inv, Spaced, RowsStamped;
  }

  /** A request that no other of its key was accepted between its first query and its write is fresh. */
  lemma UndisturbedIsFresh(s: State, f: L.FlightId)
    requires Inv(s) && f in s.flights && s.flights[f].stage.Located? && Faithful(s, s.flights[f].compositeKey)
    requires s.flights[f].since == |AcceptedOf(s, s.flights[f].compositeKey)|
    ensures Fresh(AcceptedOf(s, s.flights[f].compositeKey), s.flights[f])
  {
    assert FlightInv(s, s.flights[f]);
  }

  // ---------------------------------------------------------------- whole runs

  ghost predicate FreshStep(s: State, l: Label, compositeKey: string)
    requires Enabled(s, l)
  {
    l.Stamp? && s.flights[l.f].compositeKey == compositeKey ==> Fresh(AcceptedOf(s, compositeKey), s.flights[l.f])
  }

  ghost predicate AlwaysFresh(ls: seq<Label>, compositeKey: string)
    requires ValidRun(ls)
    decreases |ls|
  {
    ls == [] || (var n := |ls| - 1;
      AlwaysFresh(ls[..n], compositeKey) && FreshStep(After(ls[..n]), ls[n], compositeKey))
  }

  ghost predicate AlwaysFaithful(ls: seq<Label>, compositeKey: string)
    requires ValidRun(ls)
    decreases |ls|
  {
    Faithful(After(ls), compositeKey) && (ls != [] ==> AlwaysFaithful(ls[..|ls| - 1], compositeKey))
  }

  lemma StepKeepsFaithfulExactly(s: State, l: Label, compositeKey: string)
    requires Inv(s) && Enabled(s, l) && Faithful(s, compositeKey)
    ensures Faithful(Apply(s, l), compositeKey) <==> FreshStep(s, l, compositeKey)
  {
    hide Inv, Fresh;
    if l.Stamp? {
      hide Faithful;
      if s.flights[l.f].compositeKey == compositeKey {
        StampKeepsFaithfulExactly(s, l.f, l.fresh_);
      } else {
        StampKeepsOtherKeys(s, l.f, l.fresh_, compositeKey);
      }
    } else {
      hide Spaced, L.Holds, RowForTimes, AnyRecent;
    }
  }

  /**
   Over every interleaving, for every key: accepted requests are five seconds apart and the key's one
   row says when the last was accepted, at every point of the run, exactly when every stamp was fresh.
   */
  lemma {:induction false} FaithfulExactlyWhenFresh(ls: seq<Label>, compositeKey: string)
    requires ValidRun(ls)
    ensures AlwaysFaithful(ls, compositeKey) <==> AlwaysFresh(ls, compositeKey)
    decreases |ls|
  {
    if ls == [] {
      assert Faithful(EMPTY, compositeKey);
    } else {
      hide Faithful, Enabled, Apply, Inv, FreshStep;
      var n := |ls| - 1;
      FaithfulExactlyWhenFresh(ls[..n], compositeKey);
      RunsKeepInv(ls[..n]);
      if AlwaysFaithful(ls[..n], compositeKey) {
        AlwaysFaithfulNow(ls[..n], compositeKey);
        StepKeepsFaithfulExactly(After(ls[..n]), ls[n], compositeKey);
      }
    }
  }

  lemma AlwaysFaithfulNow(ls: seq<Label>, compositeKey: string)
    requires ValidRun(ls) && AlwaysFaithful(ls, compositeKey)
    ensures Faithful(After(ls), compositeKey)
  {
  }

  ghost predicate UndisturbedStep(s: State, l: Label, compositeKey: string)
    requires Enabled(s, l)
  {
    l.Stamp? && s.flights[l.f].compositeKey == compositeKey ==> s.flights[l.f].since == |AcceptedOf(s, compositeKey)|
  }

  ghost predicate AlwaysUndisturbed(ls: seq<Label>, compositeKey: string)
    requires ValidRun(ls)
    decreases |ls|
  {
    ls == [] || (var n := |ls| - 1;
      AlwaysUndisturbed(ls[..n], compositeKey) && UndisturbedStep(After(ls[..n]), ls[n], compositeKey))
  }

  lemma {:induction false} UndisturbedRunsAreFresh(ls: seq<Label>, compositeKey: string)
    requires ValidRun(ls) && AlwaysUndisturbed(ls, compositeKey)
    ensures AlwaysFresh(ls, compositeKey)
    decreases |ls|
  {
    if ls != [] {
      var n := |ls| - 1;
      UndisturbedRunsAreFresh(ls[..n], compositeKey);
      FaithfulExactlyWhenFresh(ls[..n], compositeKey);
      AlwaysFaithfulNow(ls[..n], compositeKey);
      RunsKeepInv(ls[..n]);
      hide Faithful, Inv, Fresh, Apply;
      if ls[n].Stamp? && After(ls[..n]).flights[ls[n].f].compositeKey == compositeKey {
        UndisturbedIsFresh(After(ls[..n]), ls[n].f);
      }
    }
  }

  /** If no request of a key is accepted between another's first query and its write, five seconds lie between them. */
  lemma UndisturbedRunsAreSpaced(ls: seq<Label>, compositeKey: string)
    requires ValidRun(ls) && AlwaysUndisturbed(ls, compositeKey)
    ensures Spaced(AcceptedOf(After(ls), compositeKey))
  {
    UndisturbedRunsAreFresh(ls, compositeKey);
    FaithfulExactlyWhenFresh(ls, compositeKey);
    AlwaysFaithfulNow(ls, compositeKey);
  }

  // ---------------------------------------------------------------- two duplicates at once

  lemma RunSnoc(ls: seq<Label>, l: Label)
    requires ValidRun(ls) && Enabled(After(ls), l)
    ensures ValidRun(ls + [l]) && After(ls + [l]) == Apply(After(ls), l)
  {
    hide Enabled, Apply;
    assert (ls + [l])[..|ls|] == ls;
  }

  function Twin(stage: Stage): Flight {
    Flight("", 0, 0, stage)
  }

  function Twins(stage: Stage, stage': Stage): State {
    EMPTY.(flights := map[0 := Twin(stage), 1 := Twin(stage')])
  }

  lemma TwinsMove(first: Stage, second: Stage, moved: Stage)
    ensures Moved(Twins(first, second), 0, Twin(moved)) == Twins(moved, second)
    ensures Moved(Twins(first, second), 1, Twin(moved)) == Twins(first, moved)
  {
  }

  lemma TwinsArrive() returns (ls: seq<Label>)
    ensures ValidRun(ls) && After(ls) == Twins(Arrived, Arrived)
  {
    ls := [];
    RunSnoc(ls, Arrive(0, ""));
    ls := ls + [Arrive(0, "")];
    RunSnoc(ls, Arrive(1, ""));
    ls := ls + [Arrive(1, "")];
  }

  lemma TwinsLocate() returns (ls: seq<Label>)
    ensures ValidRun(ls) && After(ls) == Twins(Located(None), Located(None))
  {
    hide Moved;
    ls := TwinsArrive();
    RunSnoc(ls, Query(0));
    ls := ls + [Query(0)];
    TwinsMove(Arrived, Arrived, Cleared);
    RunSnoc(ls, Query(1));
    ls := ls + [Query(1)];
    TwinsMove(Cleared, Arrived, Cleared);
    RunSnoc(ls, Locate(0, None));
    ls := ls + [Locate(0, None)];
    TwinsMove(Cleared, Cleared, Located(None));
    RunSnoc(ls, Locate(1, None));
    ls := ls + [Locate(1, None)];
    TwinsMove(Located(None), Cleared, Located(None));
  }

  /** Two requests of one key at one moment both pass, and leave two rows of the key behind. */
  lemma TwinsBothPass() returns (ls: seq<Label>)
    ensures ValidRun(ls) && AcceptedOf(After(ls), "") == [0, 0]
    ensures After(ls).rows.Keys == {0, 1} && !Faithful(After(ls), "")
  {
    ls := TwinsLocate();
    RunSnoc(ls, Stamp(0, 0));
    ls := ls + [Stamp(0, 0)];
    RunSnoc(ls, Stamp(1, 1));
    ls := ls + [Stamp(1, 1)];
    var a := AcceptedOf(After(ls), "");
    assert a[0] == a[1] == 0;
  }
}
