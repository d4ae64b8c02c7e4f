/**
 The limiter with requests that overlap. The server awaits the database three times for each request:
 the check's query, the increment's query, and the write of an absolute count. Between these, any
 other request may move. This is the machine of all such interleavings, for all keys at once.
 */
module ConcurrentLimiter {
  import opened Wrappers
  import opened RateLimit
  import opened RateLimitTheorems
  import opened SlidingWindow

  type RowId = nat
  type FlightId = nat
  type Table = map<RowId, Row>

  /** A query's answer: a row, as it was then. */
  datatype Found = Found(id: RowId, row: Row)

  /** How far a request has come, with the clock readings it has taken. */
  datatype Stage =
    | Queried
    | Passed(checkedAt: Time)
    | Counting(checkedAt: Time, countedAt: Time)
    | Reread(checkedAt: Time, countedAt: Time, read: Option<Found>)
    | Writing(request: Request, read: Option<Found>)

  /** A request on its way: what its check saw, and how many requests of its key had been counted then. */
  datatype Flight = Flight(key: Key, since: nat, seen: Option<Found>, stage: Stage)

  datatype State = State(
    rows: Table,
    clock: Time,
    flights: map<FlightId, Flight>,
    counted: map<Key, seq<Request>>
  )

  datatype Label =
    | Tick
    | Query(f: FlightId, key: Key, pick: Option<RowId>)
    | Decide(f: FlightId)
    | Begin(f: FlightId)
    | ReadAgain(f: FlightId, pick: Option<RowId>)
    | Compute(f: FlightId)
    | Write(f: FlightId, fresh_: RowId)

  /** The requests of a key in the order in which their counts were written. */
  function CountedOf(s: State, key: Key): seq<Request> {
    if key in s.counted then s.counted[key] else []
  }

  function Limiting(config: Config, key: Key): Limits {
    LimitsOf(config, key.kind)
  }

  // ---------------------------------------------------------------- one write

  /** The fields that an increment writes; the others stay as they are in the table. */
  datatype RowUpdate = RowUpdate(requestCount: nat, windowStart: Option<Time>, blockedUntil: Option<Option<Time>>)

  predicate Over(row: Row, limits: Limits, now: Time) {
    now >= row.windowStart + limits.windowMs
  }

  function CountUpdate(read: Row, limits: Limits, now: Time, blockNow: Time): RowUpdate {
    if Over(read, limits, now) then RowUpdate(1, Some(now), Some(None))
    else if read.requestCount + 1 >= limits.max then
      RowUpdate(read.requestCount + 1, None, Some(Some(blockNow + limits.blockDurationMs)))
    else RowUpdate(read.requestCount + 1, None, None)
  }

  function Updated(row: Row, u: RowUpdate): Row {
    row.(requestCount := u.requestCount,
         windowStart := if u.windowStart.Some? then u.windowStart.value else row.windowStart,
         blockedUntil := if u.blockedUntil.Some? then u.blockedUntil.value else row.blockedUntil)
  }

  lemma OwnUpdate(row: Row, key: Key, limits: Limits, now: Time, blockNow: Time)
    requires OfKey(row, key)
    ensures Updated(row, CountUpdate(row, limits, now, blockNow))
            == IncrementedRow(Some(row), key.identifier, key.kind, limits, now, blockNow)
  {
  }

  // ---------------------------------------------------------------- the machine

  /** A possible answer of the unordered query for a key. */
  predicate Answers(rows: Table, key: Key, pick: Option<RowId>) {
    match pick
    case None => forall id | id in rows :: !OfKey(rows[id], key)
    case Some(id) => id in rows && OfKey(rows[id], key)
  }

  function FoundAt(rows: Table, pick: Option<RowId>): Option<Found>
    requires pick.Some? ==> pick.value in rows
  {
    if pick.Some? then Some(Found(pick.value, rows[pick.value])) else None
  }

  function RowOf(found: Option<Found>): Option<Row> {
    if found.Some? then Some(found.value.row) else None
  }

  predicate Enabled(s: State, l: Label) {
    match l
    case Tick => true
    case Query(f, key, pick) => f !in s.flights && Answers(s.rows, key, pick)
    case Decide(f) => f in s.flights && s.flights[f].stage.Queried?
    case Begin(f) => f in s.flights && s.flights[f].stage.Passed?
    case ReadAgain(f, pick) =>
      f in s.flights && s.flights[f].stage.Counting? && Answers(s.rows, s.flights[f].key, pick)
    case Compute(f) => f in s.flights && s.flights[f].stage.Reread?
    case Write(f, fresh_) =>
      && f in s.flights && s.flights[f].stage.Writing?
      && (s.flights[f].stage.read.None? ==> fresh_ !in s.rows)
      && (s.flights[f].stage.read.Some? ==> s.flights[f].stage.read.value.id in s.rows)
  }

  function Moved(s: State, f: FlightId, stage: Stage): State
    requires f in s.flights
  {
    s.(flights := s.flights[f := s.flights[f].(stage := stage)])
  }

  /** The rows after a flight's write: a new row, or its fields set in the row it read. */
  function RowsWritten(config: Config, rows: Table, key: Key, r: Request, read: Option<Found>, fresh_: RowId): Table
    requires read.Some? ==> read.value.id in rows
  {
    var limits := Limiting(config, key);
    match read
    case None => rows[fresh_ := Row(key.identifier, key.kind, 1, r.countedAt, None)]
    case Some(found) =>
      rows[found.id := Updated(rows[found.id], CountUpdate(found.row, limits, r.countedAt, r.blockedAt))]
  }

  function Written(config: Config, s: State, f: FlightId, fresh_: RowId): State
    requires Enabled(s, Write(f, fresh_))
  {
    var Flight(key, _, _, Writing(r, read)) := s.flights[f];
    s.(rows := RowsWritten(config, s.rows, key, r, read, fresh_),
       flights := s.flights - {f},
       counted := s.counted[key := CountedOf(s, key) + [r]])
  }

  function Decided(config: Config, s: State, f: FlightId): State
    requires f in s.flights
  {
    var flight := s.flights[f];
    if CheckRow(RowOf(flight.seen), flight.key.kind, Limiting(config, flight.key), s.clock) == Allowed then
      Moved(s, f, Passed(s.clock))
    else s.(flights := s.flights - {f})
  }

  function Apply(config: Config, s: State, l: Label): State
    requires Enabled(s, l)
  {
    match l
    case Tick => s.(clock := s.clock + 1)
    case Query(f, key, pick) =>
      s.(flights := s.flights[f := Flight(key, |CountedOf(s, key)|, FoundAt(s.rows, pick), Queried)])
    case Decide(f) => Decided(config, s, f)
    case Begin(f) => Moved(s, f, Counting(s.flights[f].stage.checkedAt, s.clock))
    case ReadAgain(f, pick) =>
      Moved(s, f, Reread(s.flights[f].stage.checkedAt, s.flights[f].stage.countedAt, FoundAt(s.rows, pick)))
    case Compute(f) =>
      var stage := s.flights[f].stage;
      Moved(s, f, Writing(Request(stage.checkedAt, stage.countedAt, s.clock), stage.read))
    case Write(f, fresh_) => Written(config, s, f, fresh_)
  }

  ghost predicate ValidRun(config: Config, s: State, ls: seq<Label>)
    decreases |ls|, 0
  {
    ls == [] || (var n := |ls| - 1; ValidRun(config, s, ls[..n]) && Enabled(After(config, s, ls[..n]), ls[n]))
  }

  ghost function After(config: Config, s: State, ls: seq<Label>): State
    requires ValidRun(config, s, ls)
    decreases |ls|, 1
  {
    if ls == [] then s else Apply(config, After(config, s, ls[..|ls| - 1]), ls[|ls| - 1])
  }

  const EMPTY := State(map[], 0, map[], map[])

  // ---------------------------------------------------------------- what every interleaving keeps

  predicate CheckedBy(config: Config, flight: Flight, checkedAt: Time) {
    CheckRow(RowOf(flight.seen), flight.key.kind, Limiting(config, flight.key), checkedAt) == Allowed
  }

  /** A request's clock readings are in order and past, and its check passed on what it saw. */
  predicate FlightClock(config: Config, flight: Flight, now: Time) {
    match flight.stage
    case Queried => true
    case Passed(checkedAt) => checkedAt <= now && CheckedBy(config, flight, checkedAt)
    case Counting(checkedAt, countedAt) => checkedAt <= countedAt <= now && CheckedBy(config, flight, checkedAt)
    case Reread(checkedAt, countedAt, _) => checkedAt <= countedAt <= now && CheckedBy(config, flight, checkedAt)
    case Writing(r, _) => r.checkedAt <= r.countedAt <= r.blockedAt <= now && CheckedBy(config, flight, r.checkedAt)
  }

  /** A row that was found is still there, of the same key. */
  predicate StillThere(rows: Table, key: Key, found: Option<Found>) {
    found.Some? ==> found.value.id in rows && OfKey(rows[found.value.id], key) && found.value.row.requestCount > 0
  }

  /** The query would still give this answer. */
  predicate StillTrue(rows: Table, key: Key, found: Option<Found>) {
    match found
    case None => forall id | id in rows :: !OfKey(rows[id], key)
    case Some(Found(id, row)) => id in rows && rows[id] == row
  }

  function ReadOf(stage: Stage): Option<Found> {
    match stage
    case Reread(_, _, read) => read
    case Writing(_, read) => read
    case Queried => None
    case Passed(_) => None
    case Counting(_, _) => None
  }

  predicate HasRead(stage: Stage) {
    stage.Reread? || stage.Writing?
  }

  function CheckedAt(stage: Stage): Option<Time> {
    match stage
    case Queried => None
    case Passed(checkedAt) => Some(checkedAt)
    case Counting(checkedAt, _) => Some(checkedAt)
    case Reread(checkedAt, _, _) => Some(checkedAt)
    case Writing(r, _) => Some(r.checkedAt)
  }

  /** While no request of its key has been counted since its check's query, all that it saw is still so. */
  predicate UndisturbedView(rows: Table, a: seq<Request>, flight: Flight) {
    flight.since == |a| ==>
      && StillTrue(rows, flight.key, flight.seen)
      && (HasRead(flight.stage) ==> StillTrue(rows, flight.key, ReadOf(flight.stage)))
      && (CheckedAt(flight.stage).Some? && a != [] ==> a[|a| - 1].blockedAt <= CheckedAt(flight.stage).value)
  }

  predicate FlightInv(config: Config, s: State, flight: Flight) {
    && FlightClock(config, flight, s.clock)
    && StillThere(s.rows, flight.key, flight.seen) && StillThere(s.rows, flight.key, ReadOf(flight.stage))
    && flight.since <= |CountedOf(s, flight.key)|
    && UndisturbedView(s.rows, CountedOf(s, flight.key), flight)
  }

  ghost predicate CountedPast(a: seq<Request>, now: Time) {
    forall k | 0 <= k < |a| :: a[k].checkedAt <= a[k].countedAt <= a[k].blockedAt <= now
  }

  ghost predicate Inv(config: Config, s: State) {
    && (forall id | id in s.rows :: s.rows[id].requestCount > 0)
    && (forall key :: CountedPast(CountedOf(s, key), s.clock))
    && (forall f | f in s.flights :: FlightInv(config, s, s.flights[f]))
  }

  /** Steps that write nothing move at most one flight. */
  lemma MovingKeepsInv(config: Config, s: State, s': State, f: FlightId)
    requires Inv(config, s) && s'.rows == s.rows && s'.counted == s.counted && s'.clock == s.clock
    requires forall g | g in s'.flights && g != f :: g in s.flights && s'.flights[g] == s.flights[g]
    requires f in s'.flights ==> FlightInv(config, s, s'.flights[f])
    ensures Inv(config, s')
  {
    hide FlightClock, StillThere, UndisturbedView, CountedPast;
    assert forall key :: CountedOf(s', key) == CountedOf(s, key);
    forall g | g in s'.flights
      ensures FlightInv(config, s', s'.flights[g])
    {
      assert FlightInv(config, s, s'.flights[g]);
    }
  }

  lemma TickKeepsInv(config: Config, s: State)
    requires Inv(config, s)
    ensures Inv(config, s.(clock := s.clock + 1))
  {
    hide StillThere, UndisturbedView;
    var s' := s.(clock := s.clock + 1);
    forall key
      ensures CountedPast(CountedOf(s', key), s'.clock)
    {
      assert CountedPast(CountedOf(s, key), s.clock);
    }
    forall f | f in s.flights
      ensures FlightInv(config, s', s.flights[f])
    {
      assert FlightInv(config, s, s.flights[f]);
    }
  }

  lemma ReadingIsTrue(rows: Table, key: Key, pick: Option<RowId>)
    requires Answers(rows, key, pick) && forall id | id in rows :: rows[id].requestCount > 0
    ensures StillTrue(rows, key, FoundAt(rows, pick)) && StillThere(rows, key, FoundAt(rows, pick))
  {
  }

  lemma QueryKeepsInv(config: Config, s: State, l: Label)
    requires Inv(config, s) && Enabled(s, l) && (l.Query? || l.ReadAgain?)
    ensures Inv(config, Apply(config, s, l))
  {
    var key := if l.Query? then l.key else s.flights[l.f].key;
    ReadingIsTrue(s.rows, key, l.pick);
    if l.ReadAgain? {
      assert FlightInv(config, s, s.flights[l.f]);
    }
    hide StillTrue, StillThere, CheckedBy, Answers;
    MovingKeepsInv(config, s, Apply(config, s, l), l.f);
  }

  lemma DecideKeepsInv(config: Config, s: State, f: FlightId)
    requires Inv(config, s) && Enabled(s, Decide(f))
    ensures Inv(config, Decided(config, s, f))
  {
    var flight := s.flights[f];
    assert FlightInv(config, s, flight);
    assert CountedPast(CountedOf(s, flight.key), s.clock);
    hide StillTrue, StillThere, CheckRow, Inv;
    MovingKeepsInv(config, s, Decided(config, s, f), f);
  }

  lemma ClockStepKeepsInv(config: Config, s: State, l: Label)
    requires Inv(config, s) && Enabled(s, l) && (l.Begin? || l.Compute?)
    ensures Inv(config, Apply(config, s, l))
  {
    assert FlightInv(config, s, s.flights[l.f]);
    hide StillTrue, StillThere, CheckedBy, Inv;
    MovingKeepsInv(config, s, Apply(config, s, l), l.f);
  }

  /** The steps before the write. */
  lemma ReadingStepKeepsInv(config: Config, s: State, l: Label)
    requires Inv(config, s) && Enabled(s, l) && !l.Write?
    ensures Inv(config, Apply(config, s, l))
  {
    hide Inv;
    match l
    case Tick => TickKeepsInv(config, s);
    case Query(_, _, _) => QueryKeepsInv(config, s, l);
    case ReadAgain(_, _) => QueryKeepsInv(config, s, l);
    case Decide(f) => DecideKeepsInv(config, s, f);
    case _ => ClockStepKeepsInv(config, s, l);
  }

  /** What a write leaves of the rows: every row stays, of its key, and other keys' rows are untouched. */
  ghost predicate WritesOnly(rows: Table, rows': Table, key: Key) {
    && (forall id | id in rows :: id in rows' && (forall k :: OfKey(rows'[id], k) <==> OfKey(rows[id], k)))
    && (forall id | id in rows && !OfKey(rows[id], key) :: rows'[id] == rows[id])
    && (forall id | id in rows' && id !in rows :: OfKey(rows'[id], key))
    && (forall id | id in rows' :: rows'[id].requestCount > 0)
  }

  lemma RowsWrittenOnly(config: Config, rows: Table, key: Key, r: Request, read: Option<Found>, fresh_: RowId)
    requires forall id | id in rows :: rows[id].requestCount > 0
    requires StillThere(rows, key, read) && (read.None? ==> fresh_ !in rows)
    ensures WritesOnly(rows, RowsWritten(config, rows, key, r, read, fresh_), key)
  {
  }

  lemma WriteWritesOnly(config: Config, s: State, f: FlightId, fresh_: RowId)
    requires Inv(config, s) && Enabled(s, Write(f, fresh_))
    ensures WritesOnly(s.rows, Written(config, s, f, fresh_).rows, s.flights[f].key)
  {
    var flight := s.flights[f];
    assert FlightInv(config, s, flight);
    hide FlightClock, UndisturbedView, CountedPast, StillThere, RowsWritten, WritesOnly;
    RowsWrittenOnly(config, s.rows, flight.key, flight.stage.request, flight.stage.read, fresh_);
  }

  lemma WriteKeepsOther(config: Config, s: State, f: FlightId, fresh_: RowId, other: Flight)
    requires Inv(config, s) && Enabled(s, Write(f, fresh_)) && FlightInv(config, s, other)
    ensures FlightInv(config, Written(config, s, f, fresh_), other)
  {
    WriteWritesOnly(config, s, f, fresh_);
    hide FlightClock, RowsWritten, CountedPast;
  }

  lemma WriteKeepsInv(config: Config, s: State, f: FlightId, fresh_: RowId)
    requires Inv(config, s) && Enabled(s, Write(f, fresh_))
    ensures Inv(config, Written(config, s, f, fresh_))
  {
    var s', r := Written(config, s, f, fresh_), s.flights[f].stage.request;
    WriteWritesOnly(config, s, f, fresh_);
    assert FlightInv(config, s, s.flights[f]);
    assert r.countedAt <= r.blockedAt <= s.clock;
    hide FlightInv, RowsWritten;
    forall g | g in s'.flights
      ensures FlightInv(config, s', s'.flights[g])
    {
      WriteKeepsOther(config, s, f, fresh_, s.flights[g]);
    }
    forall key
      ensures CountedPast(CountedOf(s', key), s'.clock)
    {
      assert CountedPast(CountedOf(s, key), s.clock);
    }
  }

  lemma {:induction false} RunsKeepInv(config: Config, ls: seq<Label>)
    requires ValidRun(config, EMPTY, ls)
    ensures Inv(config, After(config, EMPTY, ls))
    decreases |ls|
  {
    hide FlightInv, Enabled, Apply;
    if ls != [] {
      var n := |ls| - 1;
      RunsKeepInv(config, ls[..n]);
      StepKeepsInv(config, After(config, EMPTY, ls[..n]), ls[n]);
    }
  }

  lemma StepKeepsInv(config: Config, s: State, l: Label)
    requires Inv(config, s) && Enabled(s, l)
    ensures Inv(config, Apply(config, s, l))
  {
    hide Inv;
    if l.Write? {
      WriteKeepsInv(config, s, l.f, l.fresh_);
    } else {
      ReadingStepKeepsInv(config, s, l);
    }
  }

  // ---------------------------------------------------------------- when the limiter is right

  /** The table holds exactly this row of the key, or none. */
  ghost predicate Holds(rows: Table, key: Key, found: Option<Row>) {
    match found
    case None => forall id | id in rows :: !OfKey(rows[id], key)
    case Some(row) => exists id | id in rows ::
      rows[id] == row && OfKey(row, key) && forall j | j in rows && OfKey(rows[j], key) :: j == id
  }

  /** All requests counted for the key were permitted, and the table's one row of the key stands for them. */
  ghost predicate Faithful(config: Config, s: State, key: Key) {
    var a := CountedOf(s, key);
    AllPermitted(Limiting(config, key), a) && Holds(s.rows, key, RowFor(key, Limiting(config, key), a))
  }

  /** Counting from the row that was read is counting from the row that is there. */
  predicate SameCount(read: Option<Row>, current: Option<Row>, limits: Limits, now: Time) {
    match (read, current)
    case (None, None) => true
    case (Some(r), Some(c)) =>
      Over(r, limits, now) == Over(c, limits, now) && (Over(c, limits, now) || r.requestCount == c.requestCount)
    case _ => false
  }

  /**
   What a request would have to test just before its write: that its check still passes on the row
   that is there now, and that it read what is there now as far as counting goes.
   */
  predicate Fresh(config: Config, a: seq<Request>, flight: Flight)
    requires flight.stage.Writing?
  {
    var limits, r := Limiting(config, flight.key), flight.stage.request;
    var current := RowFor(flight.key, limits, a);
    && CheckRow(current, flight.key.kind, limits, r.checkedAt) == Allowed
    && SameCount(RowOf(flight.stage.read), current, limits, r.countedAt)
  }

  lemma UpdatesAgreeExactly(row: Row, read: Row, limits: Limits, now: Time, blockNow: Time)
    requires row.requestCount > 0 && read.requestCount > 0
    ensures Updated(row, CountUpdate(read, limits, now, blockNow))
            == Updated(row, CountUpdate(row, limits, now, blockNow))
            <==> SameCount(Some(read), Some(row), limits, now)
  {
  }

  /** The one row is counted on exactly when the write starts from what is there. */
  lemma WriteHoldsExactly(config: Config, rows: Table, key: Key, r: Request, read: Option<Found>, fresh_: RowId,
                          current: Option<Row>)
    requires Holds(rows, key, current) && StillThere(rows, key, read) && (read.None? ==> fresh_ !in rows)
    requires current.Some? ==> current.value.requestCount > 0
    ensures var limits := Limiting(config, key);
      Holds(RowsWritten(config, rows, key, r, read, fresh_), key,
            Some(IncrementedRow(current, key.identifier, key.kind, limits, r.countedAt, r.blockedAt)))
      <==> SameCount(RowOf(read), current, limits, r.countedAt)
  {
    var limits := Limiting(config, key);
    var rows' := RowsWritten(config, rows, key, r, read, fresh_);
    var counted := IncrementedRow(current, key.identifier, key.kind, limits, r.countedAt, r.blockedAt);
    if current.None? {
      assert read.None? && rows'[fresh_] == counted && OfKey(counted, key);
    } else {
      var id :| id in rows && rows[id] == current.value && forall j | j in rows && OfKey(rows[j], key) :: j == id;
      OwnUpdate(current.value, key, limits, r.countedAt, r.blockedAt);
      if read.Some? {
        assert read.value.id == id;
        UpdatesAgreeExactly(current.value, read.value.row, limits, r.countedAt, r.blockedAt);
        assert forall j | j in rows' && OfKey(rows'[j], key) :: j == id;
        assert OfKey(rows'[id], key);
      } else {
        assert OfKey(rows'[id], key) && OfKey(rows'[fresh_], key) && fresh_ != id;
      }
    }
  }

  lemma CheckPermits(key: Key, limits: Limits, a: seq<Request>, now: Time)
    requires limits.max > 0
    ensures CheckRow(RowFor(key, limits, a), key.kind, limits, now) == Allowed <==> Permits(limits, a, |a|, now)
  {
  }

  lemma RowForCounts(key: Key, limits: Limits, a: seq<Request>)
    ensures RowFor(key, limits, a).Some? ==> RowFor(key, limits, a).value.requestCount > 0
  {
  }

  /**
   One count written under any interleaving: what was right before is right after exactly when the
   count is fresh. Stale checks let too many in, and stale reads lose counts or make a second row.
   */
  lemma WriteKeepsFaithfulExactly(config: Config, s: State, f: FlightId, fresh_: RowId)
    requires Inv(config, s) && Enabled(s, Write(f, fresh_)) && Faithful(config, s, s.flights[f].key)
    ensures Faithful(config, Written(config, s, f, fresh_), s.flights[f].key)
            <==> Fresh(config, CountedOf(s, s.flights[f].key), s.flights[f])
  {
    var flight := s.flights[f];
    var key, r, read := flight.key, flight.stage.request, flight.stage.read;
    var a, limits := CountedOf(s, key), Limiting(config, key);
    assert FlightInv(config, s, flight);
    assert StillThere(s.rows, key, read);
    hide Inv, FlightInv, StillThere, Permits, CheckRow;
    PermittedSnoc(limits, a, r);
    CheckPermits(key, limits, a, r.checkedAt);
    StepRefines(key, limits, RowFor(key, limits, a), a, r);
    RowForCounts(key, limits, a);
    hide AllPermitted, RowFor, Holds, SameCount, RowsWritten, IncrementedRow;
    WriteHoldsExactly(config, s.rows, key, r, read, fresh_, RowFor(key, limits, a));
  }

  lemma HoldsElsewhere(rows: Table, rows': Table, key: Key, other: Key, found: Option<Row>)
    requires WritesOnly(rows, rows', key) && other != key
    ensures Holds(rows', other, found) <==> Holds(rows, other, found)
  {
    assert forall id | id in rows && OfKey(rows[id], other) :: !OfKey(rows[id], key) && rows'[id] == rows[id];
    assert forall id | id in rows' && OfKey(rows'[id], other) :: !OfKey(rows'[id], key) && id in rows;
  }

  lemma WriteKeepsOtherKeys(config: Config, s: State, f: FlightId, fresh_: RowId, key: Key)
    requires Inv(config, s) && Enabled(s, Write(f, fresh_)) && key != s.flights[f].key
    ensures Faithful(config, Written(config, s, f, fresh_), key) <==> Faithful(config, s, key)
  {
    var s' := Written(config, s, f, fresh_);
    WriteWritesOnly(config, s, f, fresh_);
    hide Inv, AllPermitted, RowFor, RowsWritten, Holds, WritesOnly;
    HoldsElsewhere(s.rows, s'.rows, s.flights[f].key, key, RowFor(key, Limiting(config, key), CountedOf(s, key)));
  }

  // ---------------------------------------------------------------- whole runs

  /** This step writes a count for the key. */
  predicate CountsFor(s: State, l: Label, key: Key)
    requires Enabled(s, l)
  {
    l.Write? && s.flights[l.f].key == key
  }

  ghost predicate AlwaysFaithful(config: Config, ls: seq<Label>, key: Key)
    requires ValidRun(config, EMPTY, ls)
    decreases |ls|
  {
    Faithful(config, After(config, EMPTY, ls), key) && (ls != [] ==> AlwaysFaithful(config, ls[..|ls| - 1], key))
  }

  ghost predicate FreshStep(config: Config, s: State, l: Label, key: Key)
    requires Enabled(s, l)
  {
    CountsFor(s, l, key) ==> Fresh(config, CountedOf(s, key), s.flights[l.f])
  }

  ghost predicate AlwaysFresh(config: Config, ls: seq<Label>, key: Key)
    requires ValidRun(config, EMPTY, ls)
    decreases |ls|
  {
    ls == [] || (var n := |ls| - 1;
      AlwaysFresh(config, ls[..n], key) && FreshStep(config, After(config, EMPTY, ls[..n]), ls[n], key))
  }

  lemma StepKeepsFaithfulExactly(config: Config, s: State, l: Label, key: Key)
    requires Inv(config, s) && Enabled(s, l) && Faithful(config, s, key)
    ensures Faithful(config, Apply(config, s, l), key) <==> FreshStep(config, s, l, key)
  {
    hide Inv, Fresh;
    if l.Write? {
      hide Faithful;
      if s.flights[l.f].key == key {
        WriteKeepsFaithfulExactly(config, s, l.f, l.fresh_);
      } else {
        WriteKeepsOtherKeys(config, s, l.f, l.fresh_, key);
      }
    } else {
      hide AllPermitted, Holds, RowFor, CheckRow;
    }
  }

  lemma EmptyIsFaithful(config: Config, key: Key)
    requires Limiting(config, key).max > 0
    ensures Faithful(config, EMPTY, key)
  {
  }

  /**
   Over every interleaving of any number of requests, for every key: the limiter's row stands for
   all requests counted so far, and each of them was permitted, at every point of the run, exactly
   when every count was fresh.
   */
  lemma {:induction false} FaithfulExactlyWhenFresh(config: Config, ls: seq<Label>, key: Key)
    requires Limiting(config, key).max > 0 && ValidRun(config, EMPTY, ls)
    ensures AlwaysFaithful(config, ls, key) <==> AlwaysFresh(config, ls, key)
    ensures AlwaysFaithful(config, ls, key) ==> Faithful(config, After(config, EMPTY, ls), key)
    decreases |ls|
  {
    hide Faithful, Enabled, Apply, Inv, FreshStep;
    if ls == [] {
      EmptyIsFaithful(config, key);
    } else {
      var n := |ls| - 1;
      FaithfulExactlyWhenFresh(config, ls[..n], key);
      RunsKeepInv(config, ls[..n]);
      if AlwaysFaithful(config, ls[..n], key) {
        StepKeepsFaithfulExactly(config, After(config, EMPTY, ls[..n]), ls[n], key);
      }
    }
  }

  lemma CountedInPast(config: Config, ls: seq<Label>, key: Key)
    requires ValidRun(config, EMPTY, ls)
    ensures OwnClocks(CountedOf(After(config, EMPTY, ls), key))
  {
    RunsKeepInv(config, ls);
    hide FlightInv;
    assert CountedPast(CountedOf(After(config, EMPTY, ls), key), After(config, EMPTY, ls).clock);
  }

  /**
   So overlapping requests whose counts are all fresh keep to max in each window; and if their clocks
   also follow the order in which they were counted, to the worst case in any interval. Fresh counts
   are enough for these bounds, not necessary.
   */
  lemma FreshCountsAreBounded(config: Config, ls: seq<Label>, key: Key, from: Time, k: nat)
    requires Limiting(config, key).max > 0 && ValidRun(config, EMPTY, ls) && AlwaysFresh(config, ls, key)
    requires k < |CountedOf(After(config, EMPTY, ls), key)|
    ensures var a, limits := CountedOf(After(config, EMPTY, ls), key), Limiting(config, key);
      && k - Opener(limits, a, k) + 1 <= limits.max
      && (Timed(a) ==> |IndicesWithin(a, from, limits.windowMs)| <= WorstCase(limits))
  {
    FaithfulExactlyWhenFresh(config, ls, key);
    CountedInPast(config, ls, key);
    var a, limits := CountedOf(After(config, EMPTY, ls), key), Limiting(config, key);
    hide Holds;
    WindowIsBounded(limits, a, k);
    if Timed(a) {
      LawfulIntervalIsBounded(limits, a, from);
    }
  }

  // ---------------------------------------------------------------- requests that do not overlap

  /** No request of its key has been counted since its check's query. */
  predicate Undisturbed(s: State, f: FlightId)
    requires f in s.flights
  {
    s.flights[f].since == |CountedOf(s, s.flights[f].key)|
  }

  lemma HeldRow(rows: Table, key: Key, found: Option<Found>, current: Option<Row>)
    requires Holds(rows, key, current) && StillTrue(rows, key, found) && StillThere(rows, key, found)
    ensures RowOf(found) == current
  {
  }

  /** A count that acts on the row its own check saw is fresh. */
  lemma UndisturbedIsFresh(config: Config, s: State, f: FlightId)
    requires Inv(config, s) && f in s.flights && s.flights[f].stage.Writing?
    requires Faithful(config, s, s.flights[f].key) && Undisturbed(s, f)
    ensures Fresh(config, CountedOf(s, s.flights[f].key), s.flights[f])
  {
    var flight := s.flights[f];
    var a := CountedOf(s, flight.key);
    var current := RowFor(flight.key, Limiting(config, flight.key), a);
    assert FlightInv(config, s, flight);
    assert CountedPast(a, s.clock);
    hide RowFor, CheckRow, Holds, StillTrue, StillThere, AllPermitted;
    HeldRow(s.rows, flight.key, flight.seen, current);
    HeldRow(s.rows, flight.key, flight.stage.read, current);
  }

  ghost predicate AlwaysUndisturbed(config: Config, ls: seq<Label>, key: Key)
    requires ValidRun(config, EMPTY, ls)
    decreases |ls|
  {
    ls == [] || (var n := |ls| - 1;
      && AlwaysUndisturbed(config, ls[..n], key)
      && (CountsFor(After(config, EMPTY, ls[..n]), ls[n], key) ==> Undisturbed(After(config, EMPTY, ls[..n]), ls[n].f)))
  }

  /** If no request of a key is counted between another's check and count, every count is fresh. */
  lemma {:induction false} UndisturbedRunsAreFresh(config: Config, ls: seq<Label>, key: Key)
    requires Limiting(config, key).max > 0 && ValidRun(config, EMPTY, ls) && AlwaysUndisturbed(config, ls, key)
    ensures AlwaysFresh(config, ls, key)
    decreases |ls|
  {
    if ls != [] {
      var n := |ls| - 1;
      var before := After(config, EMPTY, ls[..n]);
      UndisturbedRunsAreFresh(config, ls[..n], key);
      FaithfulExactlyWhenFresh(config, ls[..n], key);
      RunsKeepInv(config, ls[..n]);
      hide Faithful, Inv, Fresh, Apply;
      if CountsFor(before, ls[n], key) {
        UndisturbedIsFresh(config, before, ls[n].f);
      }
    }
  }

  lemma UndisturbedComesNext(config: Config, s: State, f: FlightId)
    requires Inv(config, s) && f in s.flights && s.flights[f].stage.Writing? && Undisturbed(s, f)
    ensures CountedNext(CountedOf(s, s.flights[f].key), s.flights[f].stage.request)
  {
    var a := CountedOf(s, s.flights[f].key);
    assert FlightInv(config, s, s.flights[f]);
    assert CountedPast(a, s.clock);
    hide CheckedBy, StillTrue, StillThere;
  }

  lemma CountedAfterStep(config: Config, s: State, l: Label, key: Key)
    requires Enabled(s, l)
    ensures CountedOf(Apply(config, s, l), key)
            == CountedOf(s, key) + if CountsFor(s, l, key) then [s.flights[l.f].stage.request] else []
  {
    hide CheckRow, RowsWritten;
  }

  /** And their clocks follow the order in which they were counted. */
  lemma {:induction false} UndisturbedRunsAreTimed(config: Config, ls: seq<Label>, key: Key)
    requires ValidRun(config, EMPTY, ls) && AlwaysUndisturbed(config, ls, key)
    ensures Timed(CountedOf(After(config, EMPTY, ls), key))
    decreases |ls|
  {
    if ls != [] {
      var n := |ls| - 1;
      var before := After(config, EMPTY, ls[..n]);
      UndisturbedRunsAreTimed(config, ls[..n], key);
      RunsKeepInv(config, ls[..n]);
      hide Inv, Timed, Apply, CountedNext;
      CountedAfterStep(config, before, ls[n], key);
      if CountsFor(before, ls[n], key) {
        UndisturbedComesNext(config, before, ls[n].f);
        TimedSnoc(CountedOf(before, key), before.flights[ls[n].f].stage.request);
      } else {
        assert CountedOf(before, key) + [] == CountedOf(before, key);
      }
    }
  }

  /** So they keep to max in each window and to the worst case in any interval, with any overlap of other kinds. */
  lemma UndisturbedRunsAreBounded(config: Config, ls: seq<Label>, key: Key, from: Time, k: nat)
    requires Limiting(config, key).max > 0 && ValidRun(config, EMPTY, ls) && AlwaysUndisturbed(config, ls, key)
    requires k < |CountedOf(After(config, EMPTY, ls), key)|
    ensures var a, limits := CountedOf(After(config, EMPTY, ls), key), Limiting(config, key);
      && k - Opener(limits, a, k) + 1 <= limits.max
      && |IndicesWithin(a, from, limits.windowMs)| <= WorstCase(limits)
  {
    UndisturbedRunsAreFresh(config, ls, key);
    UndisturbedRunsAreTimed(config, ls, key);
    FreshCountsAreBounded(config, ls, key, from, k);
  }

  // ---------------------------------------------------------------- requests that do

  ghost predicate Reaches(config: Config, t: State) {
    exists ls :: ValidRun(config, EMPTY, ls) && After(config, EMPTY, ls) == t
  }

  lemma ReachesStart(config: Config)
    ensures Reaches(config, EMPTY)
  {
    assert ValidRun(config, EMPTY, []) && After(config, EMPTY, []) == EMPTY;
  }

  lemma ReachesNext(config: Config, t: State, l: Label)
    requires Reaches(config, t) && Enabled(t, l)
    ensures Reaches(config, Apply(config, t, l))
  {
    hide Enabled, Apply;
    var ls :| ValidRun(config, EMPTY, ls) && After(config, EMPTY, ls) == t;
    assert (ls + [l])[..|ls|] == ls;
    assert ValidRun(config, EMPTY, ls + [l]) && After(config, EMPTY, ls + [l]) == Apply(config, t, l);
  }

  function RowsBelow(key: Key, j: nat): (rows: Table)
    ensures forall id: RowId :: id in rows <==> id < j
    ensures forall id | id in rows :: OfKey(rows[id], key)
  {
    if j == 0 then map[] else RowsBelow(key, j - 1)[j - 1 := Row(key.identifier, key.kind, 1, 0, None)]
  }

  function WaitingBetween(key: Key, j: nat, n: nat): (flights: map<FlightId, Flight>)
    ensures forall f: FlightId :: f in flights <==> j <= f < n
    ensures forall f | f in flights :: flights[f] == Flight(key, 0, None, Writing(At(0), None))
  {
    if n <= j then map[] else WaitingBetween(key, j, n - 1)[n - 1 := Flight(key, 0, None, Writing(At(0), None))]
  }

  /** n first requests that all found no row; the first j of them have written theirs. */
  function Overlapped(key: Key, n: nat, j: nat): State {
    State(RowsBelow(key, j), 0, WaitingBetween(key, j, n), if j == 0 then map[] else map[key := Burst(0, j)])
  }

  function OneMore(key: Key, n: nat, stage: Stage): State {
    var s := Overlapped(key, n, 0);
    s.(flights := s.flights[n := Flight(key, 0, None, stage)])
  }

  lemma OneMoreIsWaiting(key: Key, n: nat)
    ensures OneMore(key, n, Writing(At(0), None)) == Overlapped(key, n + 1, 0)
  {
  }

  lemma OneMoreMoves(key: Key, n: nat, stage: Stage, stage': Stage)
    ensures Moved(OneMore(key, n, stage), n, stage') == OneMore(key, n, stage')
  {
  }

  lemma {:induction false} AllWait(config: Config, key: Key, n: nat)
    ensures Reaches(config, Overlapped(key, n, 0))
    decreases n
  {
    hide Reaches, Moved;
    if n == 0 {
      ReachesStart(config);
      assert Overlapped(key, 0, 0) == EMPTY;
    } else {
      var f, s := n - 1, Overlapped(key, n - 1, 0);
      AllWait(config, key, f);
      ReachesNext(config, s, Query(f, key, None));
      ReachesNext(config, OneMore(key, f, Queried), Decide(f));
      OneMoreMoves(key, f, Queried, Passed(0));
      ReachesNext(config, OneMore(key, f, Passed(0)), Begin(f));
      OneMoreMoves(key, f, Passed(0), Counting(0, 0));
      ReachesNext(config, OneMore(key, f, Counting(0, 0)), ReadAgain(f, None));
      OneMoreMoves(key, f, Counting(0, 0), Reread(0, 0, None));
      ReachesNext(config, OneMore(key, f, Reread(0, 0, None)), Compute(f));
      OneMoreMoves(key, f, Reread(0, 0, None), Writing(At(0), None));
      OneMoreIsWaiting(key, f);
    }
  }

  lemma WritesNext(config: Config, key: Key, n: nat, j: nat)
    requires j < n
    ensures Enabled(Overlapped(key, n, j), Write(j, j))
    ensures Apply(config, Overlapped(key, n, j), Write(j, j)) == Overlapped(key, n, j + 1)
  {
    var s, s' := Overlapped(key, n, j), Overlapped(key, n, j + 1);
    assert s.rows[j := Row(key.identifier, key.kind, 1, 0, None)] == s'.rows;
    assert s.flights - {j} == s'.flights;
    assert CountedOf(s, key) + [At(0)] == Burst(0, j + 1);
    assert s.counted[key := Burst(0, j + 1)] == s'.counted;
  }

  lemma {:induction false} AllWrite(config: Config, key: Key, n: nat, j: nat)
    requires j <= n
    ensures Reaches(config, Overlapped(key, n, j))
    decreases j
  {
    hide Reaches, Apply, Enabled, Overlapped;
    if j == 0 {
      AllWait(config, key, n);
    } else {
      AllWrite(config, key, n, j - 1);
      WritesNext(config, key, n, j - 1);
      ReachesNext(config, Overlapped(key, n, j - 1), Write(j - 1, j - 1));
    }
  }

  /**
   Overlapping requests are not limited at all: whatever the configuration, any number n of first
   requests can be accepted at one and the same moment, so in one window; and they leave n rows of
   one key behind, so keys do not stay unique. For n above the limit, or above 1, the limiter is wrong.
   */
  lemma OverlapAdmitsAny(config: Config, key: Key, n: nat) returns (s: State)
    requires Limiting(config, key).max > 0
    ensures Reaches(config, s) && |CountedOf(s, key)| == n
    ensures forall k | 0 <= k < n :: CountedOf(s, key)[k].countedAt == 0
    ensures (forall id: RowId :: id in s.rows <==> id < n) && forall id | id in s.rows :: OfKey(s.rows[id], key)
    ensures n > 1 ==> !Faithful(config, s, key)
    ensures n > Limiting(config, key).max && Limiting(config, key).windowMs > 0 ==>
              !AllPermitted(Limiting(config, key), CountedOf(s, key))
  {
    AllWrite(config, key, n, n);
    s := Overlapped(key, n, n);
    var a, limits := CountedOf(s, key), Limiting(config, key);
    if n > 1 {
      assert 0 in s.rows && 1 in s.rows;
    }
    if n > limits.max && limits.windowMs > 0 && AllPermitted(limits, a) {
      OneOpener(limits, a, n - 1);
      WindowIsBounded(limits, a, n - 1);
      assert false;
    }
  }

  lemma {:induction false} OneOpener(limits: Limits, a: seq<Request>, k: nat)
    requires k < |a| && limits.windowMs > 0 && forall i | 0 <= i < |a| :: a[i].countedAt == 0
    ensures Opener(limits, a, k) == 0
  {
    if k > 0 {
      OneOpener(limits, a, k - 1);
    }
  }
}
