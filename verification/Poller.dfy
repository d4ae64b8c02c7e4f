/**
 The poll loop as the event loop sees it: each event runs to its next await. A cycle is awaiting
 its query, or the request it dispatched last; between cycles a timer is armed.
 */
module Poller {
  import opened Tables

  datatype Phase = Idle | Querying | Awaiting(rest: seq<RequestId>)

  /** `started` stands for the cycle promise being set, `stopWaiting` for the stored resolver of a pending stop. */
  datatype PollerState = PollerState(
    isRunning: bool,
    timerArmed: bool,
    started: bool,
    phase: Phase,
    stopWaiting: bool,
    stopsResolved: nat,
    dispatched: seq<RequestId>
  )

  datatype Event = Start | Stop | TimerFires | QueryAnswers(ids: seq<RequestId>) | QueryFails | RequestEnds

  const INITIAL := PollerState(false, false, false, Idle, false, 0, [])

  /** The end of a cycle: arm the timer, or, when stopped meanwhile, resolve the pending stop. */
  function EndCycle(s: PollerState): PollerState {
    if s.isRunning then s.(phase := Idle, timerArmed := true)
    else if s.stopWaiting then s.(phase := Idle, stopWaiting := false, stopsResolved := s.stopsResolved + 1)
    else s.(phase := Idle)
  }

  /** The loop over the batch: dispatch the next request, unless there is none or the poller was stopped. */
  function DispatchNext(s: PollerState, ids: seq<RequestId>): PollerState {
    if ids == [] || !s.isRunning then EndCycle(s)
    else s.(phase := Awaiting(ids[1..]), dispatched := s.dispatched + [ids[0]])
  }

  function Handle(s: PollerState, e: Event): PollerState {
    match e
    case Start => if s.isRunning then s else s.(isRunning := true, started := true, phase := Querying)
    case Stop =>
      if !s.isRunning then s
      else if s.timerArmed then s.(isRunning := false, timerArmed := false)
      else if s.started then s.(isRunning := false, stopWaiting := true)
      else s.(isRunning := false)
    case TimerFires =>
      if s.isRunning then s.(timerArmed := false, phase := Querying) else s.(timerArmed := false)
    case QueryAnswers(ids) => DispatchNext(s, ids)
    case QueryFails => EndCycle(s)
    case RequestEnds => if s.phase.Awaiting? then DispatchNext(s, s.phase.rest) else s
  }

  /** Events that can happen. A worker starts its poller once. */
  predicate CanHappen(s: PollerState, e: Event) {
    match e
    case Start => !s.started
    case Stop => true
    case TimerFires => s.timerArmed
    case QueryAnswers(_) => s.phase.Querying?
    case QueryFails => s.phase.Querying?
    case RequestEnds => s.phase.Awaiting?
  }

  class PollLoop {
    var isRunning: bool
    var timerArmed: bool
    var started: bool
    var phase: Phase
    var stopWaiting: bool
    ghost var stopsResolved: nat
    ghost var dispatched: seq<RequestId>

    constructor ()
      ensures State() == INITIAL
    {
      isRunning, timerArmed, started, phase, stopWaiting := false, false, false, Idle, false;
      stopsResolved, dispatched := 0, [];
    }

    ghost function State(): PollerState
      reads this
    {
      PollerState(isRunning, timerArmed, started, phase, stopWaiting, stopsResolved, dispatched)
    }

    method Start()
      modifies this
      ensures State() == Handle(old(State()), Event.Start)
    {
      if isRunning { return; }
      isRunning := true;
      started := true;
      phase := Querying;
    }

    /** `resolved` says whether the returned promise is resolved at once. */
    method Stop() returns (resolved: bool)
      modifies this
      ensures State() == Handle(old(State()), Event.Stop)
      ensures resolved <==> !(old(isRunning) && old(started) && !old(timerArmed))
    {
      if !isRunning { return true; }
      isRunning := false;
      if timerArmed {
        timerArmed := false;
        return true;
      }
      if started {
        stopWaiting := true;
        return false;
      }
      return true;
    }

    method OnTimer()
      modifies this
      ensures State() == Handle(old(State()), TimerFires)
    {
      timerArmed := false;
      if !isRunning { return; }
      phase := Querying;
    }

    method OnQuery(ids: seq<RequestId>)
      modifies this
      ensures State() == Handle(old(State()), QueryAnswers(ids))
    {
      Dispatch(ids);
    }

    method OnQueryError()
      modifies this
      ensures State() == Handle(old(State()), QueryFails)
    {
      ScheduleNextCycle();
    }

    method OnRequestEnd()
      requires phase.Awaiting?
      modifies this
      ensures State() == Handle(old(State()), RequestEnds)
    {
      Dispatch(phase.rest);
    }

    method Dispatch(ids: seq<RequestId>)
      modifies this
      ensures State() == DispatchNext(old(State()), ids)
    {
      if ids == [] || !isRunning {
        ScheduleNextCycle();
        return;
      }
      dispatched := dispatched + [ids[0]];
      phase := Awaiting(ids[1..]);
    }

    method ScheduleNextCycle()
      modifies this
      ensures State() == EndCycle(old(State()))
    {
      phase := Idle;
      if !isRunning {
        if stopWaiting {
          stopWaiting := false;
          stopsResolved := stopsResolved + 1;
        }
        return;
      }
      timerArmed := true;
    }
  }

  // ---------------------------------------------------------------- all runs

  ghost predicate ValidEvents(es: seq<Event>)
    decreases |es|, 0
  {
    es == [] || (ValidEvents(es[..|es| - 1]) && CanHappen(StateAfter(es[..|es| - 1]), es[|es| - 1]))
  }

  ghost function StateAfter(es: seq<Event>): PollerState
    decreases |es|, 1
  {
    if es == [] then INITIAL else Handle(StateAfter(es[..|es| - 1]), es[|es| - 1])
  }

  /**
   While running, exactly one of "timer armed" and "cycle active" holds; a stopped poller has no
   timer; and a stop is pending exactly while the cycle it interrupted is still active.
   */
  ghost predicate PollerInv(s: PollerState) {
    && (s.isRunning ==> s.started && (s.timerArmed <==> s.phase.Idle?))
    && (!s.isRunning ==> !s.timerArmed)
    && (s.stopWaiting <==> !s.isRunning && !s.phase.Idle?)
    && (!s.started ==> s == INITIAL)
    && s.stopsResolved + (if s.stopWaiting then 1 else 0) <= 1
    && (s.isRunning ==> s.stopsResolved == 0)
  }

  lemma {:induction false} EveryRunKeepsInv(es: seq<Event>)
    requires ValidEvents(es)
    ensures PollerInv(StateAfter(es))
    decreases |es|
  {
    if es != [] {
      EveryRunKeepsInv(es[..|es| - 1]);
    }
  }

  /** The early return of a cycle is never taken: a timer fires only while the poller runs. */
  lemma TimerOnlyWhileRunning(es: seq<Event>)
    requires ValidEvents(es) && CanHappen(StateAfter(es), TimerFires)
    ensures StateAfter(es).isRunning
  {
    EveryRunKeepsInv(es);
  }

  /** After a stop nothing more is dispatched, whatever happens next. */
  lemma {:induction false} NothingDispatchedAfterStop(es: seq<Event>, n: nat)
    requires ValidEvents(es) && n < |es| && es[n] == Stop && StateAfter(es[..n]).started
    ensures StateAfter(es).dispatched == StateAfter(es[..n]).dispatched && !StateAfter(es).isRunning
            && StateAfter(es).started
    decreases |es|
  {
    var m := |es| - 1;
    if n == m {
      assert es[..n] == es[..m];
    } else {
      assert es[..m][..n] == es[..n];
      NothingDispatchedAfterStop(es[..m], n);
    }
  }

  /**
   A pending stop waits for something that will happen: whatever the active cycle is awaiting, its
   end also ends the cycle and resolves the stop, and no other event does.
   */
  lemma PendingStopResolves(es: seq<Event>, e: Event)
    requires ValidEvents(es) && StateAfter(es).stopWaiting && CanHappen(StateAfter(es), e)
    ensures var s, s' := StateAfter(es), Handle(StateAfter(es), e);
      && !s.phase.Idle?
      && (s'.stopsResolved == s.stopsResolved + 1 <==> e.QueryAnswers? || e.QueryFails? || e.RequestEnds?)
      && (s'.stopsResolved == s.stopsResolved + 1 <==> s'.phase.Idle?)
      && (s'.stopsResolved == s.stopsResolved + 1 <==> !s'.stopWaiting)
  {
    EveryRunKeepsInv(es);
  }

  // ---------------------------------------------------------------- what is dispatched

  /** What the queries have answered so far, in order. */
  function Answers(es: seq<Event>): seq<seq<RequestId>> {
    if es == [] then []
    else
      var before, e := Answers(es[..|es| - 1]), es[|es| - 1];
      if e.QueryAnswers? then before + [e.ids] else before
  }

  function Concat(batches: seq<seq<RequestId>>): seq<RequestId> {
    if batches == [] then [] else Concat(batches[..|batches| - 1]) + batches[|batches| - 1]
  }

  /**
   This much of the last answer has been dispatched: while a request is running, the rest is still to
   come; once the next query is made, or the running poller waits for its timer, the whole of it.
   */
  ghost predicate PartOf(s: PollerState, answer: seq<RequestId>, part: seq<RequestId>) {
    && part <= answer
    && (s.phase.Awaiting? ==> part + s.phase.rest == answer)
    && (s.phase.Querying? || (s.isRunning && s.phase.Idle?) ==> part == answer)
  }

  /** All answers but the last as a whole, one after another, and then a part of the last one. */
  ghost predicate DispatchedInOrder(s: PollerState, answers: seq<seq<RequestId>>) {
    if answers == [] then s.dispatched == [] && !s.phase.Awaiting? else exists part :: Splits(s, answers, part)
  }

  ghost predicate Splits(s: PollerState, answers: seq<seq<RequestId>>, part: seq<RequestId>)
    requires answers != []
  {
    PartOf(s, answers[|answers| - 1], part) && s.dispatched == Concat(answers[..|answers| - 1]) + part
  }

  /** A new answer comes when everything before it has been dispatched. */
  lemma AnswerKeepsOrder(s: PollerState, answers: seq<seq<RequestId>>, ids: seq<RequestId>)
    requires DispatchedInOrder(s, answers) && s.phase.Querying?
    ensures DispatchedInOrder(Handle(s, QueryAnswers(ids)), answers + [ids])
  {
    var s', answers' := Handle(s, QueryAnswers(ids)), answers + [ids];
    assert answers'[..|answers|] == answers;
    assert s.dispatched == Concat(answers);
    var part := if ids == [] || !s.isRunning then [] else [ids[0]];
    assert Splits(s', answers', part);
  }

  lemma RequestEndKeepsOrder(s: PollerState, answers: seq<seq<RequestId>>)
    requires DispatchedInOrder(s, answers) && s.phase.Awaiting?
    ensures DispatchedInOrder(Handle(s, RequestEnds), answers)
  {
    var s', answer := Handle(s, RequestEnds), answers[|answers| - 1];
    var part :| Splits(s, answers, part);
    hide Concat;
    var rest := s.phase.rest;
    var part' := if rest == [] || !s.isRunning then part else part + [rest[0]];
    assert rest != [] ==> [rest[0]] + rest[1..] == rest;
    assert part' + (if rest == [] || !s.isRunning then rest else rest[1..]) == answer;
    assert PartOf(s', answer, part');
    assert Splits(s', answers, part');
  }

  lemma OtherEventsKeepOrder(s: PollerState, answers: seq<seq<RequestId>>, e: Event)
    requires PollerInv(s) && DispatchedInOrder(s, answers) && CanHappen(s, e) && (!s.started ==> answers == [])
    requires !e.QueryAnswers? && !e.RequestEnds?
    ensures DispatchedInOrder(Handle(s, e), answers)
  {
    if answers != [] {
      var part :| Splits(s, answers, part);
      assert Splits(Handle(s, e), answers, part);
    }
  }

  /** A query is answered by a started poller, and nothing undoes the start. */
  lemma NothingAnsweredBefore(s: PollerState, e: Event)
    requires PollerInv(s) && CanHappen(s, e)
    ensures !Handle(s, e).started ==> !s.started && !e.QueryAnswers?
    ensures (e.QueryAnswers? ==> s.phase.Querying?) && (e.RequestEnds? ==> s.phase.Awaiting?)
  {
  }

  /**
   Over every run, requests are dispatched exactly as the queries answered them: every answer from its
   first request on, in its order, each request once, and no answer before the one before it is through,
   unless the poller has been stopped.
   */
  lemma {:induction false} DispatchFollowsAnswers(es: seq<Event>)
    requires ValidEvents(es)
    ensures DispatchedInOrder(StateAfter(es), Answers(es)) && (!StateAfter(es).started ==> Answers(es) == [])
    decreases |es|
  {
    if es != [] {
      var n := |es| - 1;
      var before := StateAfter(es[..n]);
      DispatchFollowsAnswers(es[..n]);
      EveryRunKeepsInv(es[..n]);
      NothingAnsweredBefore(before, es[n]);
      hide DispatchedInOrder, PollerInv, CanHappen, Handle;
      match es[n]
      case QueryAnswers(ids) => AnswerKeepsOrder(before, Answers(es[..n]), ids);
      case RequestEnds => RequestEndKeepsOrder(before, Answers(es[..n]));
      case _ => OtherEventsKeepOrder(before, Answers(es[..n]), es[n]);
    }
  }

  /** A batch of two, for instance, goes out first request first. */
  lemma FirstThenSecond(a: RequestId, b: RequestId)
    ensures var es := [Start, QueryAnswers([a, b]), RequestEnds];
      ValidEvents(es) && StateAfter(es).dispatched == [a, b] && StateAfter(es).phase == Awaiting([])
  {
    var e1: seq<Event> := [Start];
    var e2: seq<Event> := [Start, QueryAnswers([a, b])];
    var es: seq<Event> := [Start, QueryAnswers([a, b]), RequestEnds];
    assert es[..2] == e2 && e2[..1] == e1 && e1[..0] == [];
    assert ValidEvents(e1[..0]) && StateAfter(e1[..0]) == INITIAL;
    assert ValidEvents(e1) && StateAfter(e1) == Handle(INITIAL, Start);
    assert ValidEvents(e2) && StateAfter(e2) == Handle(StateAfter(e1), QueryAnswers([a, b]));
    assert ValidEvents(es) && StateAfter(es) == Handle(StateAfter(e2), RequestEnds);
  }
}
