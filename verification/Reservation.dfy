/** The single-use reservation of src/repo_health_doctor/gate/authorization.py: any number of processes race to
    create one marker file with `O_CREAT | O_EXCL`, write a payload to it and sync it. Exclusive creation is the
    `open()` of the System Interfaces volume of POSIX.1-2017. The marker is never removed. */
module Reservation {
  import opened Wrappers
  import opened Porcelain

  type Pid = nat

  datatype Refusal = AlreadyExists | WriteFailure

  /** One call: not begun, writing the rest of the payload through its descriptor, returned, or crashed. */
  datatype Call =
    | Idle
    | Writing(view: Bytes)
    | Returned(refusal: Option<Refusal>)
    | Crashed

  /** One system call of a process, or its crash. */
  datatype Action =
    | Open
    | OpenFails
    | Write(written: int)
    | WriteFails
    | Sync
    | SyncFails
    | Crash

  datatype Event = Event(pid: Pid, action: Action)

  /** The marker's content, if the file exists, and the calls that have begun. */
  datatype State = State(marker: Option<Bytes>, calls: map<Pid, Call>)

  const INITIAL := State(None, map[])

  function CallOf(s: State, pid: Pid): Call {
    if pid in s.calls then s.calls[pid] else Idle
  }

  function Content(s: State): Bytes {
    if s.marker.Some? then s.marker.value else []
  }

  predicate IsReserved(s: State, pid: Pid) {
    CallOf(s, pid) == Returned(None)
  }

  /** `ExecutionAuthorizationReservation.consumed`. */
  predicate IsConsumed(s: State, pid: Pid) {
    CallOf(s, pid).Returned?
  }

  /** The effect of one event; an event that its call is not ready for has none. */
  function Step(payload: Bytes, s: State, e: Event): State {
    var call := CallOf(s, e.pid);
    match (call, e.action)
    case (Idle, Open) =>
      if s.marker.Some? then s.(calls := s.calls[e.pid := Returned(Some(AlreadyExists))])
      else State(Some([]), s.calls[e.pid := Writing(payload)])
    case (Idle, OpenFails) => s.(calls := s.calls[e.pid := Returned(Some(WriteFailure))])
    case (Writing(view), Write(written)) =>
      if view == [] || written > |view| then s
      else if written <= 0 then s.(calls := s.calls[e.pid := Returned(Some(WriteFailure))])
      else State(Some(Content(s) + view[..written]), s.calls[e.pid := Writing(view[written..])])
    case (Writing(view), WriteFails) => s.(calls := s.calls[e.pid := Returned(Some(WriteFailure))])
    case (Writing(view), Sync) => if view == [] then s.(calls := s.calls[e.pid := Returned(None)]) else s
    case (Writing(view), SyncFails) =>
      if view == [] then s.(calls := s.calls[e.pid := Returned(Some(WriteFailure))]) else s
    case (Idle, Crash) => s.(calls := s.calls[e.pid := Crashed])
    case (Writing(view), Crash) => s.(calls := s.calls[e.pid := Crashed])
    case _ => s
  }

  /** A run: any interleaving of any processes' events. */
  function Run(payload: Bytes, s: State, events: seq<Event>): State {
    if events == [] then s
    else Step(payload, Run(payload, s, events[..|events| - 1]), events[|events| - 1])
  }

  // ----- safety over every run -----

  /** The call that created the marker, if it is still writing or has returned success; no other call ever does. */
  predicate IsOwner(s: State, pid: Pid) {
    CallOf(s, pid).Writing? || IsReserved(s, pid)
  }

  /** Without a marker nobody writes and nobody has reserved; with one, at most one call does, and the marker holds
      what that call has written of the payload so far. */
  ghost predicate Inv(payload: Bytes, s: State) {
    && (s.marker.None? ==> forall pid :: !IsOwner(s, pid))
    && (forall p, q :: IsOwner(s, p) && IsOwner(s, q) ==> p == q)
    && (forall pid :: CallOf(s, pid).Writing? && s.marker.Some? ==> s.marker.value + CallOf(s, pid).view == payload)
    && (forall pid :: IsReserved(s, pid) ==> s.marker == Some(payload))
    && (s.marker.Some? ==> s.marker.value <= payload)
  }

  lemma StepKeepsInv(payload: Bytes, s: State, e: Event)
    requires Inv(payload, s)
    ensures Inv(payload, Step(payload, s, e))
    ensures s.marker.Some? ==> Step(payload, s, e).marker.Some?
  {
    var t := Step(payload, s, e);
    forall pid | pid != e.pid ensures CallOf(t, pid) == CallOf(s, pid) && (IsOwner(t, pid) <==> IsOwner(s, pid)) {
    }
    assert CallOf(s, e.pid).Writing? ==> IsOwner(s, e.pid);
    match (CallOf(s, e.pid), e.action)
    case (Idle, Open) =>
      if s.marker.None? {
        assert [] + payload == payload;
      }
    case (Writing(view), Write(written)) =>
      if 0 < written <= |view| {
        assert view[..written] + view[written..] == view;
        assert s.marker.value + view[..written] + view[written..] == s.marker.value + view;
      }
    case (Writing(view), Sync) =>
      if view == [] {
        assert s.marker.value + view == s.marker.value;
      }
    case _ =>
  }

  lemma {:induction false} RunKeepsInv(payload: Bytes, events: seq<Event>)
    ensures Inv(payload, Run(payload, INITIAL, events))
  {
    if events != [] {
      RunKeepsInv(payload, events[..|events| - 1]);
      StepKeepsInv(payload, Run(payload, INITIAL, events[..|events| - 1]), events[|events| - 1]);
    }
  }

  /** Under any interleaving, with crashes, short writes and failing calls: at most one call ever returns
      `reserved`, and then the marker holds the complete payload. */
  lemma AtMostOneReservation(payload: Bytes, events: seq<Event>, p: Pid, q: Pid)
    ensures var s := Run(payload, INITIAL, events);
            && (IsReserved(s, p) && IsReserved(s, q) ==> p == q)
            && (IsReserved(s, p) ==> s.marker == Some(payload))
  {
    RunKeepsInv(payload, events);
    var s := Run(payload, INITIAL, events);
    assert IsReserved(s, p) ==> IsOwner(s, p);
    assert IsReserved(s, q) ==> IsOwner(s, q);
  }

  lemma {:induction false} RunAppends(payload: Bytes, s: State, first: seq<Event>, second: seq<Event>)
    ensures Run(payload, s, first + second) == Run(payload, Run(payload, s, first), second)
  {
    if second == [] {
      assert first + second == first;
    } else {
      assert (first + second)[..|first + second| - 1] == first + second[..|second| - 1];
      RunAppends(payload, s, first, second[..|second| - 1]);
    }
  }

  /** Once the marker exists it stays, and a call that has not created it never succeeds. */
  lemma {:induction false} LateCallsNeverSucceed(payload: Bytes, s: State, events: seq<Event>, pid: Pid)
    requires s.marker.Some? && !IsOwner(s, pid)
    ensures var t := Run(payload, s, events);
            t.marker.Some? && s.marker.value <= t.marker.value && !IsOwner(t, pid)
  {
    if events != [] {
      LateCallsNeverSucceed(payload, s, events[..|events| - 1], pid);
    }
  }

  /** The outcome of a call is final. */
  lemma {:induction false} OutcomesAreFinal(payload: Bytes, s: State, events: seq<Event>, pid: Pid)
    requires CallOf(s, pid).Returned? || CallOf(s, pid).Crashed?
    ensures CallOf(Run(payload, s, events), pid) == CallOf(s, pid)
  {
    if events != [] {
      OutcomesAreFinal(payload, s, events[..|events| - 1], pid);
    }
  }

  // ----- what `consumed` means -----

  /** The action that took a call out of idleness. */
  function First(events: seq<Event>, pid: Pid): (first: Option<Action>)
    ensures first.Some? ==> first.value in {Open, OpenFails, Crash}
  {
    if events == [] then None
    else
      var front, last := events[..|events| - 1], events[|events| - 1];
      if First(front, pid).Some? then First(front, pid)
      else if last.pid == pid && last.action in {Open, OpenFails, Crash} then Some(last.action)
      else None
  }

  /** No call began by opening the marker. */
  ghost predicate NobodyOpened(events: seq<Event>) {
    forall pid :: First(events, pid) != Some(Open)
  }

  lemma FirstAfter(events: seq<Event>, e: Event, pid: Pid)
    ensures First(events + [e], pid) ==
            if First(events, pid).Some? then First(events, pid)
            else if e.pid == pid && e.action in {Open, OpenFails, Crash} then Some(e.action)
            else None
  {
    assert (events + [e])[..|events|] == events;
  }

  /** How the state tells the first actions of the calls. */
  ghost predicate TellsFirsts(s: State, events: seq<Event>) {
    && (s.marker.None? <==> NobodyOpened(events))
    && (forall pid :: CallOf(s, pid).Idle? <==> First(events, pid).None?)
    && (forall pid :: First(events, pid) == Some(OpenFails) ==> CallOf(s, pid) == Returned(Some(WriteFailure)))
    && (forall pid :: First(events, pid) == Some(Crash) ==> CallOf(s, pid).Crashed?)
  }

  lemma {:induction false} RunTellsFirsts(payload: Bytes, events: seq<Event>)
    ensures TellsFirsts(Run(payload, INITIAL, events), events)
  {
    if events == [] {
      assert forall pid :: First(events, pid).None?;
    } else {
      var front, last := events[..|events| - 1], events[|events| - 1];
      RunTellsFirsts(payload, front);
      assert events == front + [last];
      StepTellsFirsts(payload, Run(payload, INITIAL, front), front, last);
    }
  }

  lemma StepTellsFirsts(payload: Bytes, s: State, events: seq<Event>, e: Event)
    requires TellsFirsts(s, events)
    ensures TellsFirsts(Step(payload, s, e), events + [e])
  {
    var t, more := Step(payload, s, e), events + [e];
    forall pid
      ensures First(more, pid) == if First(events, pid).Some? then First(events, pid)
                                  else if e.pid == pid && e.action in {Open, OpenFails, Crash} then Some(e.action)
                                  else None
      ensures pid != e.pid ==> CallOf(t, pid) == CallOf(s, pid)
    {
      FirstAfter(events, e, pid);
    }
    assert CallOf(s, e.pid).Idle? <==> First(events, e.pid).None?;
    if !NobodyOpened(events) {
      var pid :| First(events, pid) == Some(Open);
      assert First(more, pid) == Some(Open);
    } else {
      assert First(events, e.pid) != Some(Open);
      if CallOf(s, e.pid).Idle? && e.action == Open {
        assert First(more, e.pid) == Some(Open);
      }
    }
  }

  /** A call reports its authorization consumed though there is no marker exactly when it began by failing to open it and
      no call began by opening it. */
  lemma ConsumedWithoutMarkerExactlyWhen(payload: Bytes, events: seq<Event>, pid: Pid)
    ensures var s := Run(payload, INITIAL, events);
            IsConsumed(s, pid) && s.marker.None? <==> First(events, pid) == Some(OpenFails) && NobodyOpened(events)
  {
    RunTellsFirsts(payload, events);
    var s := Run(payload, INITIAL, events);
    assert CallOf(s, pid).Idle? <==> First(events, pid).None?;
    assert NobodyOpened(events) ==> First(events, pid) != Some(Open);
  }

  /** In that case the authorization reported as consumed is not: a later call can still reserve. */
  lemma ConsumedWithoutMarker(payload: Bytes, first: Pid, second: Pid)
    requires first != second
    ensures var s := Run(payload, INITIAL, [Event(first, OpenFails)]);
            IsConsumed(s, first) && s.marker.None?
    ensures IsReserved(Run(payload, INITIAL, [Event(first, OpenFails)] + SoloRun(payload, second)), second)
  {
    var events := [Event(first, OpenFails)];
    var s := Run(payload, INITIAL, events);
    assert events[..0] == [];
    RunAppends(payload, INITIAL, events, SoloRun(payload, second));
    SoloCallSucceeds(payload, s, second);
  }

  // ----- what a returned call did -----

  /** The event that a returned call must have had, given what it returned. */
  predicate HasCause(events: seq<Event>, pid: Pid, refusal: Option<Refusal>) {
    match refusal
    case None => Event(pid, Open) in events && Event(pid, Sync) in events
    case Some(AlreadyExists) => Event(pid, Open) in events
    case Some(WriteFailure) =>
      || Event(pid, OpenFails) in events || Event(pid, WriteFails) in events || Event(pid, SyncFails) in events
      || exists e :: e in events && e.pid == pid && e.action.Write? && e.action.written <= 0
  }

  lemma CauseStays(events: seq<Event>, e: Event, pid: Pid, refusal: Option<Refusal>)
    requires HasCause(events, pid, refusal)
    ensures HasCause(events + [e], pid, refusal)
  {
    assert forall x :: x in events ==> x in events + [e];
  }

  lemma StepCause(payload: Bytes, s: State, events: seq<Event>, e: Event)
    requires CallOf(s, e.pid).Writing? ==> Event(e.pid, Open) in events
    ensures CallOf(s, e.pid) != CallOf(Step(payload, s, e), e.pid) && CallOf(Step(payload, s, e), e.pid).Returned? ==>
              HasCause(events + [e], e.pid, CallOf(Step(payload, s, e), e.pid).refusal)
    ensures CallOf(Step(payload, s, e), e.pid).Writing? ==> Event(e.pid, Open) in events + [e]
  {
    assert e in events + [e];
    assert forall x :: x in events ==> x in events + [e];
  }

  /** Over every run: whoever reserved opened the marker, and synced it; a call that was refused for an existing marker
      tried to open it, and there is one; and one that reports a failure had a system call that failed. */
  lemma {:induction false} ReturnedCallHasItsCause(payload: Bytes, events: seq<Event>, pid: Pid)
    ensures var s := Run(payload, INITIAL, events);
            && (CallOf(s, pid).Writing? ==> Event(pid, Open) in events)
            && (CallOf(s, pid).Returned? ==> HasCause(events, pid, CallOf(s, pid).refusal))
            && (CallOf(s, pid) == Returned(Some(AlreadyExists)) ==> s.marker.Some?)
  {
    if events != [] {
      var front, e := events[..|events| - 1], events[|events| - 1];
      assert events == front + [e];
      var s := Run(payload, INITIAL, front);
      ReturnedCallHasItsCause(payload, front, pid);
      if e.pid == pid {
        StepCause(payload, s, front, e);
      }
      if CallOf(s, pid).Returned? { CauseStays(front, e, pid, CallOf(s, pid).refusal); }
      assert forall x :: x in front ==> x in events;
      RunKeepsInv(payload, front);
      StepKeepsInv(payload, s, e);
    }
  }

  // ----- progress -----

  /** An undisturbed call: create, write everything, sync. */
  function SoloRun(payload: Bytes, pid: Pid): seq<Event> {
    [Event(pid, Open)] + (if payload == [] then [] else [Event(pid, Write(|payload|))]) + [Event(pid, Sync)]
  }

  /** Without contention or failure a call does reserve. */
  lemma SoloCallSucceeds(payload: Bytes, s: State, pid: Pid)
    requires s.marker.None? && CallOf(s, pid).Idle?
    ensures IsReserved(Run(payload, s, SoloRun(payload, pid)), pid)
    ensures Run(payload, s, SoloRun(payload, pid)).marker == Some(payload)
  {
    var open, sync := [Event(pid, Open)], [Event(pid, Sync)];
    var write := if payload == [] then [] else [Event(pid, Write(|payload|))];
    RunAppends(payload, s, open + write, sync);
    RunAppends(payload, s, open, write);
    var created := Run(payload, s, open);
    assert open[..0] == [] && sync[..0] == [];
    assert created == State(Some([]), s.calls[pid := Writing(payload)]);
    if payload != [] {
      assert write[..0] == [];
      assert payload[..|payload|] == payload && payload[|payload|..] == [];
      assert [] + payload == payload;
    }
    var written := Run(payload, created, write);
    assert written.marker == Some(payload) && CallOf(written, pid) == Writing([]);
  }

  // ----- the call as the source writes it -----

  /** The file system seen by all processes, and everything that happened to it. */
  class SharedDirectory {
    const payload: Bytes
    var state: State
    ghost var trace: seq<Event>

    ghost predicate Valid()
      reads this
    {
      state == Run(payload, INITIAL, trace)
    }

    constructor (payload: Bytes)
      ensures Valid() && state == INITIAL && this.payload == payload
    {
      this.payload, state, trace := payload, INITIAL, [];
    }

    method Perform(pid: Pid, action: Action)
      requires Valid()
      modifies this
      ensures Valid() && state == Step(payload, old(state), Event(pid, action))
      ensures trace == old(trace) + [Event(pid, action)]
    {
      state := Step(payload, state, Event(pid, action));
      trace := trace + [Event(pid, action)];
    }

    /** Anything the other processes may do between two system calls of this one; if it is quiet, nothing. */
    method OthersRun(pid: Pid, quiet: bool)
      requires Valid()
      modifies this
      ensures quiet ==> state == old(state) && trace == old(trace)
      ensures Valid() && CallOf(state, pid) == old(CallOf(state, pid))
      ensures old(state.marker.Some?) ==> state.marker.Some?
      ensures old(trace) <= trace
    {
      var steps: int := *;
      steps := if quiet || steps < 0 then 0 else steps;
      for i := 0 to steps
        invariant i == 0 ==> state == old(state) && trace == old(trace)
        invariant Valid() && CallOf(state, pid) == old(CallOf(state, pid))
        invariant old(state.marker.Some?) ==> state.marker.Some?
        invariant old(trace) <= trace
      {
        var e: Event := *;
        if e.pid != pid {
          RunKeepsInv(payload, trace);
          StepKeepsInv(payload, state, e);
          Perform(e.pid, e.action);
        }
      }
    }

    /** One round of the write loop: some of the rest is written, or the call has failed. */
    method WriteSome(pid: Pid, view: Bytes, quiet: bool) returns (ok: bool, rest: Bytes)
      requires Valid() && CallOf(state, pid) == Writing(view) && view != []
      modifies this
      ensures Valid() && old(trace) <= trace
      ensures ok ==> |rest| < |view| && CallOf(state, pid) == Writing(rest)
      ensures !ok ==> CallOf(state, pid) == Returned(Some(WriteFailure))
      ensures quiet ==> ok
    {
      rest := view;
      OthersRun(pid, quiet);
      RunKeepsInv(payload, trace);
      assert IsOwner(state, pid);
      var fails: bool, written: int := *, *;
      if fails && !quiet {
        Perform(pid, WriteFails);
        return false, rest;
      }
      if written > |view| {
        written := |view|;
      }
      if written < 1 && quiet {
        written := 1;
      }
      Perform(pid, Write(written));
      if written <= 0 {
        return false, rest;
      }
      return true, view[written..];
    }

    /** `reserve_execution_authorization` for one process, the others running in between. What it returns is the
        outcome of its call in the run that was performed, so everything proved about runs holds of it. If it is quiet,
        that is, the others rest and no system call fails, it reserves exactly if there was no marker. */
    method Reserve(pid: Pid, quiet: bool) returns (refusal: Option<Refusal>)
      requires Valid() && CallOf(state, pid).Idle?
      modifies this
      ensures Valid() && old(trace) <= trace
      ensures CallOf(state, pid) == Returned(refusal)
      ensures refusal.None? ==> state.marker == Some(payload) && old(state.marker).None?
      ensures quiet ==> refusal == if old(state.marker).None? then None else Some(AlreadyExists)
    {
      OthersRun(pid, quiet);
      var opens: bool := *;
      if !opens && !quiet {
        Perform(pid, OpenFails);
        return Some(WriteFailure);
      }
      var existed := state.marker.Some?;
      Perform(pid, Open);
      if existed {
        return Some(AlreadyExists);
      }
      var view := payload;
      while view != []
        invariant Valid() && old(trace) <= trace
        invariant CallOf(state, pid) == Writing(view)
        decreases |view|
      {
        var written;
        written, view := WriteSome(pid, view, quiet);
        if !written {
          return Some(WriteFailure);
        }
      }
      OthersRun(pid, quiet);
      var syncs: bool := *;
      if !syncs && !quiet {
        Perform(pid, SyncFails);
        return Some(WriteFailure);
      }
      Perform(pid, Sync);
      AtMostOneReservation(payload, trace, pid, pid);
      return None;
    }
  }
}
