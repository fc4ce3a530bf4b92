/**
 The ordered event queue with a single drainer (events.go).

 Class EventQueue is one Client's queue; Dispatch is the same queue under any
 interleaving of emitters, including callbacks that emit again.
*/
module Events {
  import opened Basics

  datatype EventName = LoggedIn | LoggedOut | TokenRefreshed | SessionExpired | InitFailed

  class EventQueue {
    var pendingEvents: seq<EventName>
    var eventDispatching: bool
    // What the emitter has been called with, and everything ever enqueued.
    ghost var delivered: seq<EventName>
    ghost var log: seq<EventName>

    ghost predicate Idle() reads this {
      !eventDispatching && pendingEvents == [] && delivered == log
    }

    ghost predicate InOrder() reads this {
      delivered + pendingEvents == log
    }

    constructor ()
      ensures Idle() && log == []
    {
      pendingEvents := [];
      eventDispatching := false;
      delivered := [];
      log := [];
    }

    /** The caller that gets `true` must drain. */
    method EnqueueEvent(event: EventName) returns (mustDrain: bool)
      modifies this
      ensures pendingEvents == old(pendingEvents) + [event] && log == old(log) + [event]
      ensures mustDrain == !old(eventDispatching) && eventDispatching
      ensures delivered == old(delivered)
    {
      pendingEvents := pendingEvents + [event];
      log := log + [event];
      if eventDispatching {
        return false;
      }
      eventDispatching := true;
      return true;
    }

    /** `reentrant[k]` lists the events that the k-th emitter call enqueues before
        it returns. Everything is delivered, in enqueue order, and the duty to
        drain ends. */
    method DrainEvents(reentrant: seq<seq<EventName>>)
      requires eventDispatching && InOrder()
      modifies this
      ensures Idle()
      ensures old(log) <= log && old(delivered) <= delivered
      ensures |log| == |old(log)| + TotalLength(reentrant[..Min(|reentrant|, |delivered| - |old(delivered)|)])
    {
      var calls := 0;
      ghost var start := |delivered|;
      while true
        invariant eventDispatching && InOrder()
        invariant old(log) <= log && old(delivered) <= delivered
        invariant calls == |delivered| - start
        invariant |log| == |old(log)| + TotalLength(reentrant[..Min(|reentrant|, calls)])
        decreases if calls < |reentrant| then |reentrant| - calls else 0, |pendingEvents|
      {
        if pendingEvents == [] {
          eventDispatching := false;
          return;
        }
        var event := pendingEvents[0];
        pendingEvents := pendingEvents[1..];
        delivered := delivered + [event];
        if calls < |reentrant| {
          EnqueueAll(reentrant[calls]);
          TotalLengthExtend(reentrant, calls);
        }
        calls := calls + 1;
      }
    }

    method EnqueueAll(events: seq<EventName>)
      requires eventDispatching && InOrder()
      modifies this
      ensures eventDispatching && InOrder() && delivered == old(delivered)
      ensures pendingEvents == old(pendingEvents) + events && log == old(log) + events
    {
      for i := 0 to |events|
        invariant eventDispatching && delivered == old(delivered)
        invariant pendingEvents == old(pendingEvents) + events[..i]
        invariant log == old(log) + events[..i]
      {
        var mustDrain := EnqueueEvent(events[i]);
        assert !mustDrain;
      }
    }
  }

  function TotalLength<T>(s: seq<seq<T>>): nat {
    if s == [] then 0 else TotalLength(s[..|s| - 1]) + |s[|s| - 1]|
  }

  lemma TotalLengthExtend<T>(s: seq<seq<T>>, k: nat)
    requires k < |s|
    ensures TotalLength(s[..k + 1]) == TotalLength(s[..k]) + |s[k]|
  {
    assert s[..k + 1][..k] == s[..k];
  }
}

/** The queue under any interleaving of threads. */
module Dispatch {
  import opened Basics
  import opened Events

  type Thread = nat

  datatype Duty = NoDuty | MustDrain | Delivering(event: EventName)

  datatype System = System(
    pending: seq<EventName>,
    dispatching: bool,
    duties: map<Thread, Duty>,
    log: seq<EventName>,
    delivered: seq<EventName>)

  function DutyOf(s: System, t: Thread): Duty {
    if t in s.duties then s.duties[t] else NoDuty
  }

  datatype Action = Emit(event: EventName) | Take | Return

  /** One step of a thread; None when the action is not available to it. `Emit`
      is available to every thread at any time, also from inside a callback. */
  function Do(s: System, t: Thread, a: Action): Option<System> {
    match a
    case Emit(e) =>
      var queued := s.(pending := s.pending + [e], log := s.log + [e]);
      if s.dispatching then Some(queued)
      else Some(queued.(dispatching := true, duties := s.duties[t := MustDrain]))
    case Take =>
      if !DutyOf(s, t).MustDrain? then None
      else if s.pending == [] then
        Some(s.(dispatching := false, duties := s.duties[t := NoDuty]))
      else
        Some(s.(pending := s.pending[1..], duties := s.duties[t := Delivering(s.pending[0])]))
    case Return =>
      if !DutyOf(s, t).Delivering? then None
      else
        Some(s.(delivered := s.delivered + [DutyOf(s, t).event],
                duties := s.duties[t := MustDrain]))
  }

  ghost predicate Initial(s: System) {
    s == System([], false, map[], [], [])
  }

  ghost predicate Next(s: System, s': System) {
    exists t, a :: Do(s, t, a) == Some(s')
  }

  ghost predicate IsRun(run: seq<System>) {
    && |run| > 0
    && Initial(run[0])
    && forall i :: 0 <= i < |run| - 1 ==> Next(run[i], run[i + 1])
  }

  /** The thread that owes the drain, when there is one. */
  ghost predicate SoleDrainer(s: System, t: Thread) {
    && DutyOf(s, t) != NoDuty
    && forall u :: u != t ==> DutyOf(s, u) == NoDuty
  }

  ghost predicate Delivery(s: System, inFlight: seq<EventName>) {
    s.delivered + inFlight + s.pending == s.log
  }

  ghost predicate Inv(s: System) {
    if s.dispatching then
      exists t ::
        && SoleDrainer(s, t)
        && Delivery(s, if DutyOf(s, t).Delivering? then [DutyOf(s, t).event] else [])
    else
      (forall t :: DutyOf(s, t) == NoDuty) && s.pending == [] && s.delivered == s.log
  }

  lemma StepKeepsInv(s: System, t: Thread, a: Action, s': System)
    requires Inv(s) && Do(s, t, a) == Some(s')
    ensures Inv(s')
    ensures s.log <= s'.log && s.delivered <= s'.delivered
  {
    assert forall u :: u != t ==> DutyOf(s', u) == DutyOf(s, u);
    if s.dispatching {
      var d :| SoleDrainer(s, d)
               && Delivery(s, if DutyOf(s, d).Delivering? then [DutyOf(s, d).event] else []);
      if a.Emit? {
        assert forall u :: DutyOf(s', u) == DutyOf(s, u);
        assert SoleDrainer(s', d);
        assert Delivery(s', if DutyOf(s', d).Delivering? then [DutyOf(s', d).event] else []);
      } else {
        assert t == d;
        if s'.dispatching {
          assert SoleDrainer(s', d);
          assert Delivery(s', if DutyOf(s', d).Delivering? then [DutyOf(s', d).event] else []);
        }
      }
    } else {
      assert SoleDrainer(s', t) && Delivery(s', []);
    }
  }

  /** In every reachable state of any interleaving, the delivered events, the one
      being delivered and the pending ones are the enqueue log, and
      `dispatching` means that exactly one thread owes the drain. */
  lemma {:induction false} DispatchInvariant(run: seq<System>, i: nat)
    requires IsRun(run) && i < |run|
    ensures Inv(run[i])
    ensures run[i].delivered <= run[i].log
  {
    if i > 0 {
      DispatchInvariant(run, i - 1);
      assert Next(run[i - 1], run[i - 1 + 1]);
      var t, a :| Do(run[i - 1], t, a) == Some(run[i]);
      StepKeepsInv(run[i - 1], t, a, run[i]);
    }
    if run[i].dispatching {
      var d :| SoleDrainer(run[i], d) && Delivery(run[i],
        if DutyOf(run[i], d).Delivering? then [DutyOf(run[i], d).event] else []);
    }
  }

  /** No event waits for a drainer that does not exist: while anything is
      undelivered, some thread can take the next delivery step. */
  lemma SomeoneDelivers(s: System)
    requires Inv(s) && s.delivered != s.log
    ensures exists t :: Do(s, t, Take).Some? || Do(s, t, Return).Some?
  {
    var d :| SoleDrainer(s, d);
    assert Do(s, d, Take).Some? || Do(s, d, Return).Some?;
  }
}
