/** Heartbeat start and stop in internal/evalevent/lifecycle.go: the mutex, the two
    channels, the heartbeat goroutine and any number of callers, in every
    interleaving.

    Of the lifecycle itself only what matters here is kept: whether it has started
    and finished, and which events were published. Lifecycles.NewLifecycle gives a
    positive interval, so Start always spawns the goroutine. */
module Heartbeats {
  datatype Owner = Free | HeldByCaller(i: nat) | HeldByHeartbeat

  datatype Kind = StartCall | FinishCall | OtherCall

  /** A caller. Only Finish reads heartbeatStarted, asks the goroutine to stop and
      waits for it, before it takes the mutex again for its own work. */
  datatype Place = Idle | Reading | Unlocked(heartbeat: bool) | Waiting | Ready | Working | Leaving | Returned

  datatype Caller = Caller(kind: Kind, place: Place)

  /** The goroutine: not spawned, in its select, about to take the mutex, holding it
      before and after its publication, about to end, and ended. */
  datatype Routine = Absent | Selecting | Ticked | Publishing | Published(ok: bool) | Stopping | Ended

  datatype Event = OtherEvent | HeartbeatEvent | RunFinishedEvent

  datatype State = State(
    owner: Owner, callers: seq<Caller>, routine: Routine, heartbeatStarted: bool,
    stopCloses: nat, doneCloses: nat, started: bool, finished: bool, events: seq<Event>)

  /** How a call's work goes. Start and Finish publish twice, and the other calls once or
      twice; when a publication fails the one before it may have been delivered. */
  datatype Outcome = Refused | PublishFailed(delivered: bool) | Succeeded(twice: bool)

  datatype Action =
    | Acquire(i: nat)
    | Read(i: nat)
    | RequestStop(i: nat)
    | SeeDone(i: nat)
    | Work(i: nat, outcome: Outcome)
    | Release(i: nat)
    | Tick
    | SeeStop
    | RoutineAcquire
    | RoutinePublish(ok: bool)
    | RoutineRelease
    | RoutineEnd

  function Init(kinds: seq<Kind>): State {
    State(Free, seq(|kinds|, i requires 0 <= i < |kinds| => Caller(kinds[i], Idle)), Absent, false, 0, 0, false, false,
          [])
  }

  predicate At(s: State, i: nat, place: Place) {
    i < |s.callers| && s.callers[i].place == place
  }

  predicate Enabled(s: State, a: Action) {
    match a
    case Acquire(i) => (At(s, i, Idle) || At(s, i, Ready)) && s.owner == Free
    case Read(i) => At(s, i, Reading)
    case RequestStop(i) => i < |s.callers| && s.callers[i].place.Unlocked?
    case SeeDone(i) => At(s, i, Waiting) && s.doneCloses > 0
    case Work(i, _) => At(s, i, Working)
    case Release(i) => At(s, i, Leaving)
    case Tick => s.routine == Selecting
    case SeeStop => s.routine == Selecting && s.stopCloses > 0
    case RoutineAcquire => s.routine == Ticked && s.owner == Free
    case RoutinePublish(_) => s.routine == Publishing
    case RoutineRelease => s.routine.Published?
    case RoutineEnd => s.routine == Stopping
  }

  function Move(s: State, i: nat, place: Place): State
    requires i < |s.callers|
  {
    s.(callers := s.callers[i := s.callers[i].(place := place)])
  }

  /** requestHeartbeatStop: the Once lets only the first request close the channel. */
  function CloseStop(s: State): State {
    s.(stopCloses := if s.stopCloses == 0 then 1 else s.stopCloses)
  }

  predicate Active(s: State) {
    s.started && !s.finished
  }

  function Delivered(one: bool): seq<Event> {
    if one then [OtherEvent] else []
  }

  /** What a call does while it holds the mutex. */
  function DoWork(s: State, kind: Kind, outcome: Outcome): State {
    match kind
    case StartCall =>
      if s.started || outcome == Refused then s
      else if outcome.PublishFailed? then
        CloseStop(s.(started := true, events := s.events + Delivered(outcome.delivered)))
      else
        s.(started := true, heartbeatStarted := true, routine := Selecting,
           events := s.events + [OtherEvent, OtherEvent])
    case FinishCall =>
      if !Active(s) || outcome == Refused then s
      else if outcome.PublishFailed? then
        CloseStop(s.(finished := true, events := s.events + Delivered(outcome.delivered)))
      else s.(finished := true, events := s.events + [OtherEvent, RunFinishedEvent])
    case OtherCall =>
      if !Active(s) || outcome == Refused then s
      else if outcome.PublishFailed? then CloseStop(s.(events := s.events + Delivered(outcome.delivered)))
      else s.(events := s.events + [OtherEvent] + Delivered(outcome.twice))
  }

  function Next(s: State, a: Action): State
    requires Enabled(s, a)
  {
    match a
    case Acquire(i) =>
      var first := s.callers[i].place == Idle && s.callers[i].kind == FinishCall;
      Move(s, i, if first then Reading else Working).(owner := HeldByCaller(i))
    case Read(i) => Move(s, i, Unlocked(s.heartbeatStarted)).(owner := Free)
    case RequestStop(i) => CloseStop(Move(s, i, if s.callers[i].place.heartbeat then Waiting else Ready))
    case SeeDone(i) => Move(s, i, Ready)
    case Work(i, outcome) => Move(DoWork(s, s.callers[i].kind, outcome), i, Leaving)
    case Release(i) => Move(s, i, Returned).(owner := Free)
    case Tick => s.(routine := Ticked)
    case SeeStop => s.(routine := Stopping)
    case RoutineAcquire => s.(routine := Publishing, owner := HeldByHeartbeat)
    case RoutinePublish(ok) =>
      if !Active(s) then s.(routine := Published(false))
      else if !ok then CloseStop(s.(routine := Published(false)))
      else s.(routine := Published(true), events := s.events + [HeartbeatEvent])
    case RoutineRelease => s.(routine := if s.routine.ok then Selecting else Stopping, owner := Free)
    case RoutineEnd => s.(routine := Ended, doneCloses := s.doneCloses + 1)
  }

  predicate InLock(place: Place) {
    place == Reading || place == Working || place == Leaving
  }

  /** One caller, as far as the mutex and the goroutine go. */
  ghost predicate CallerOk(s: State, i: nat)
    requires i < |s.callers|
  {
    var c := s.callers[i];
    && (InLock(c.place) <==> s.owner == HeldByCaller(i))
    && ((c.place == Reading || c.place.Unlocked? || c.place == Waiting || c.place == Ready) ==> c.kind == FinishCall)
    && (c.place.Unlocked? && c.place.heartbeat ==> s.heartbeatStarted)
    && (c.place == Waiting ==> s.heartbeatStarted && s.stopCloses > 0)
  }

  /** The last event, if any, is the only one that can be run_finished. */
  predicate FinishedLast(events: seq<Event>, finished: bool) {
    forall n :: 0 <= n < |events| && events[n] == RunFinishedEvent ==> finished && n == |events| - 1
  }

  /** The mutex, the channels and the events. */
  ghost predicate LockOk(s: State) {
    && (s.owner.HeldByCaller? ==> s.owner.i < |s.callers|)
    && (s.owner == HeldByHeartbeat <==> s.routine == Publishing || s.routine.Published?)
    && (s.heartbeatStarted <==> s.routine != Absent)
    && (s.heartbeatStarted ==> s.started)
    && s.stopCloses <= 1
    && s.doneCloses == (if s.routine == Ended then 1 else 0)
    && FinishedLast(s.events, s.finished) && (s.finished ==> s.started)
  }

  ghost predicate Inv(s: State) {
    && (forall i: nat {:trigger CallerOk(s, i)} :: i < |s.callers| ==> CallerOk(s, i))
    && LockOk(s)
  }

  lemma InitHolds(kinds: seq<Kind>)
    ensures Inv(Init(kinds))
  {
    var s := Init(kinds);
    forall i: nat | i < |s.callers|
      ensures CallerOk(s, i)
    {
    }
  }

  predicate OfCaller(a: Action) {
    a.Acquire? || a.Read? || a.RequestStop? || a.SeeDone? || a.Release?
  }

  predicate OfRoutine(a: Action) {
    a.Tick? || a.SeeStop? || a.RoutineAcquire? || a.RoutinePublish? || a.RoutineRelease? || a.RoutineEnd?
  }

  /** The caller that takes or releases the mutex, and the others. */
  lemma LockStep(s: State, a: Action, k: nat)
    requires Inv(s) && Enabled(s, a) && k < |s.callers| && (a.Acquire? || a.Read? || a.Release?)
    ensures CallerOk(Next(s, a), k)
  {
    assert CallerOk(s, k) && CallerOk(s, a.i);
  }

  lemma WaitStep(s: State, a: Action, k: nat)
    requires Inv(s) && Enabled(s, a) && k < |s.callers| && (a.RequestStop? || a.SeeDone?)
    ensures CallerOk(Next(s, a), k)
  {
    assert CallerOk(s, k) && CallerOk(s, a.i);
  }

  lemma WorkStep(s: State, a: Action, k: nat)
    requires Inv(s) && Enabled(s, a) && k < |s.callers| && a.Work?
    ensures CallerOk(Next(s, a), k)
  {
    assert CallerOk(s, k) && CallerOk(s, a.i);
  }

  lemma RoutineStep(s: State, a: Action, k: nat)
    requires Inv(s) && Enabled(s, a) && k < |s.callers| && OfRoutine(a)
    ensures CallerOk(Next(s, a), k)
  {
    assert CallerOk(s, k);
  }

  lemma CallersKept(s: State, a: Action)
    requires Inv(s) && Enabled(s, a)
    ensures forall i: nat {:trigger CallerOk(Next(s, a), i)} :: i < |Next(s, a).callers| ==> CallerOk(Next(s, a), i)
  {
    var t := Next(s, a);
    forall k: nat | k < |t.callers|
      ensures CallerOk(t, k)
    {
      if a.Work? {
        WorkStep(s, a, k);
      } else if OfRoutine(a) {
        RoutineStep(s, a, k);
      } else if a.RequestStop? || a.SeeDone? {
        WaitStep(s, a, k);
      } else {
        LockStep(s, a, k);
      }
    }
  }

  lemma CallerLock(s: State, a: Action)
    requires Inv(s) && Enabled(s, a) && OfCaller(a)
    ensures LockOk(Next(s, a))
  {
    assert CallerOk(s, a.i);
  }

  /** Only a Finish that succeeds adds run_finished, as the last event. */
  lemma WorkEvents(s: State, kind: Kind, outcome: Outcome)
    requires FinishedLast(s.events, s.finished) && (s.finished ==> s.started)
    ensures FinishedLast(DoWork(s, kind, outcome).events, DoWork(s, kind, outcome).finished)
  {
  }

  lemma WorkLock(s: State, a: Action)
    requires Inv(s) && Enabled(s, a) && a.Work?
    ensures LockOk(Next(s, a))
  {
    assert CallerOk(s, a.i);
    WorkEvents(s, s.callers[a.i].kind, a.outcome);
  }

  lemma RoutineLock(s: State, a: Action)
    requires LockOk(s) && Enabled(s, a) && OfRoutine(a)
    ensures LockOk(Next(s, a))
  {
  }

  /** Every step of every interleaving keeps the invariant. */
  lemma StepKeeps(s: State, a: Action)
    requires Inv(s) && Enabled(s, a)
    ensures Inv(Next(s, a))
  {
    CallersKept(s, a);
    if a.Work? {
      WorkLock(s, a);
    } else if OfRoutine(a) {
      RoutineLock(s, a);
    } else {
      CallerLock(s, a);
    }
  }

  /** The state after a list of actions; those that are not enabled do nothing. */
  function Run(s: State, actions: seq<Action>): State {
    if actions == [] then s
    else
      var t := Run(s, actions[..|actions| - 1]);
      if Enabled(t, actions[|actions| - 1]) then Next(t, actions[|actions| - 1]) else t
  }

  lemma {:induction false} RunHolds(kinds: seq<Kind>, actions: seq<Action>)
    ensures Inv(Run(Init(kinds), actions))
  {
    if actions == [] {
      InitHolds(kinds);
    } else {
      RunHolds(kinds, actions[..|actions| - 1]);
      var t := Run(Init(kinds), actions[..|actions| - 1]);
      if Enabled(t, actions[|actions| - 1]) {
        StepKeeps(t, actions[|actions| - 1]);
      }
    }
  }

  /** Safety. A Finish that waits for the goroutine does not hold the mutex, and there
      is a goroutine, which has been asked to stop: a Finish after a failed Start does
      not wait. Neither channel is closed twice. Nothing follows run_finished. */
  lemma ShutdownIsSafe(kinds: seq<Kind>, actions: seq<Action>, i: nat)
    ensures var s := Run(Init(kinds), actions);
      && (At(s, i, Waiting) ==> s.owner != HeldByCaller(i) && s.routine != Absent && s.stopCloses == 1)
      && s.stopCloses <= 1 && s.doneCloses <= 1
      && forall n :: 0 <= n < |s.events| - 1 ==> s.events[n] != RunFinishedEvent
  {
    RunHolds(kinds, actions);
    var s := Run(Init(kinds), actions);
    if i < |s.callers| {
      assert CallerOk(s, i);
    }
  }

  // Nobody is stuck.

  /** A step that the holder of the mutex can take. */
  lemma HolderMoves(s: State) returns (a: Action)
    requires Inv(s) && s.owner != Free
    ensures Enabled(s, a) && a != Tick
  {
    match s.owner
    case HeldByCaller(i) =>
      assert CallerOk(s, i);
      a := match s.callers[i].place case Reading => Read(i) case Working => Work(i, Refused) case _ => Release(i);
    case HeldByHeartbeat =>
      a := if s.routine == Publishing then RoutinePublish(true) else RoutineRelease;
  }

  /** Until every call has returned, some step other than a tick can be taken, whoever
      holds the mutex and wherever the goroutine is. */
  lemma NoDeadlock(s: State, i: nat) returns (a: Action)
    requires Inv(s) && i < |s.callers| && s.callers[i].place != Returned
    ensures Enabled(s, a) && a != Tick
  {
    assert CallerOk(s, i);
    if s.owner != Free {
      a := HolderMoves(s);
    } else {
      match s.callers[i].place
      case Idle => a := Acquire(i);
      case Ready => a := Acquire(i);
      case Unlocked(_) => a := RequestStop(i);
      case Waiting =>
        match s.routine {
          case Selecting => a := SeeStop;
          case Ticked => a := RoutineAcquire;
          case Stopping => a := RoutineEnd;
          case Ended => a := SeeDone(i);
        }
    }
  }

  function PlaceLeft(place: Place): nat {
    match place
    case Idle => 7
    case Reading => 6
    case Unlocked(_) => 5
    case Waiting => 4
    case Ready => 3
    case Working => 2
    case Leaving => 1
    case Returned => 0
  }

  function RoutineLeft(routine: Routine): nat {
    match routine
    case Absent => 10
    case Ticked => 6
    case Publishing => 5
    case Published(ok) => if ok then 4 else 3
    case Selecting => 3
    case Stopping => 2
    case Ended => 1
  }

  function CallersLeft(callers: seq<Caller>): nat {
    if callers == [] then 0
    else CallersLeft(callers[..|callers| - 1]) + PlaceLeft(callers[|callers| - 1].place)
  }

  lemma {:induction false} CallersUpdate(callers: seq<Caller>, i: nat, c: Caller)
    requires i < |callers|
    ensures CallersLeft(callers[i := c]) == CallersLeft(callers) - PlaceLeft(callers[i].place) + PlaceLeft(c.place)
  {
    var n := |callers| - 1;
    if i < n {
      CallersUpdate(callers[..n], i, c);
      assert callers[i := c][..n] == callers[..n][i := c];
    } else {
      assert callers[i := c][..n] == callers[..n];
    }
  }

  function Left(s: State): int {
    CallersLeft(s.callers) + RoutineLeft(s.routine)
  }

  /** A caller that moves on is closer to its return. */
  lemma MovesOn(s: State, i: nat, place: Place)
    requires i < |s.callers| && PlaceLeft(place) < PlaceLeft(s.callers[i].place)
    ensures CallersLeft(Move(s, i, place).callers) < CallersLeft(s.callers)
  {
    CallersUpdate(s.callers, i, s.callers[i].(place := place));
  }

  lemma CallerRunsOut(s: State, a: Action)
    requires Enabled(s, a) && OfCaller(a)
    ensures CallersLeft(Next(s, a).callers) < CallersLeft(s.callers) && Next(s, a).routine == s.routine
  {
    MovesOn(s, a.i, Next(s, a).callers[a.i].place);
  }

  lemma WorkRunsOut(s: State, a: Action)
    requires Inv(s) && Enabled(s, a) && a.Work?
    ensures CallersLeft(Next(s, a).callers) < CallersLeft(s.callers)
    ensures RoutineLeft(Next(s, a).routine) <= RoutineLeft(s.routine)
  {
    MovesOn(s, a.i, Leaving);
  }

  lemma RoutineRunsOut(s: State, a: Action)
    requires Enabled(s, a) && OfRoutine(a) && a != Tick
    ensures RoutineLeft(Next(s, a).routine) < RoutineLeft(s.routine) && Next(s, a).callers == s.callers
  {
  }

  /** Every step but a tick brings the end closer. So between two ticks only finitely
      many steps are taken, and when no other step is left every call has returned. */
  lemma StepsRunOut(s: State, a: Action)
    requires Inv(s) && Enabled(s, a) && a != Tick
    ensures 0 <= Left(Next(s, a)) < Left(s)
  {
    if a.Work? {
      WorkRunsOut(s, a);
    } else if OfRoutine(a) {
      RoutineRunsOut(s, a);
    } else {
      CallerRunsOut(s, a);
    }
  }
}
