/** The mobile handler's one-shot waiter (mobileflow/mobileflow.go), as an object. */
module MobileFlow {
  import opened Basics
  import opened Query

  class FlowWaiter {
    const expectation: Expectation
    var delivery: Option<Uri>
    var delivered: bool

    constructor (expectation: Expectation)
      ensures this.expectation == expectation && delivery == None && !delivered
    {
      this.expectation, delivery, delivered := expectation, None, false;
    }

    /** Only a delivered waiter has something queued. */
    predicate Valid() reads this {
      delivery.Some? ==> delivered
    }
  }

  class Handler {
    var active: FlowWaiter?

    constructor ()
      ensures active == null
    {
      active := null;
    }

    method Register(waiter: FlowWaiter) returns (ok: bool)
      modifies this
      ensures ok == (old(active) == null)
      ensures active == if ok then waiter else old(active)
    {
      if active != null {
        return false;
      }
      active := waiter;
      return true;
    }

    /** Unregistering twice, or after another flow has registered, is harmless. */
    method Unregister(waiter: FlowWaiter)
      modifies this
      ensures active == if old(active) == waiter then null else old(active)
    {
      if active == waiter {
        active := null;
      }
    }

    /** DeliverURL, for a callback URI that parses. The queue of a registered waiter that
        has not been served is empty, so accepting a callback never blocks. */
    method DeliverURL(callback: Uri) returns (accepted: bool)
      requires active != null ==> active.Valid()
      modifies (if active == null then {} else {active})`delivery,
               (if active == null then {} else {active})`delivered
      ensures accepted <==>
                active != null && !old(active.delivered) && Matches(active.expectation, callback)
      ensures accepted ==> active.delivered && active.delivery == Some(callback)
      ensures !accepted && active != null ==>
                active.delivered == old(active.delivered) && active.delivery == old(active.delivery)
    {
      if active == null || active.delivered {
        return false;
      }
      var matches := MatchesCallback(active.expectation, callback);
      if !matches {
        return false;
      }
      if active.delivery.None? {
        active.delivery := Some(callback);
        active.delivered := true;
      }
      return active.delivered;
    }
  }
}

/** The handler under any interleaving of flows, cancellations and deliveries. */
module MobileProtocol {
  import opened Basics
  import opened Query

  type Thread = nat

  /** `accepted`, `retired` and `owner` are history: what DeliverURL accepted for the
      waiter, whether its flow has unregistered it, and whose it is. */
  datatype Waiter = Waiter(
    expectation: Expectation,
    queue: Option<Uri>,
    delivered: bool,
    accepted: seq<Uri>,
    retired: bool,
    owner: Thread)

  datatype Shared = Shared(active: Option<nat>, waiters: map<nat, Waiter>, next: nat)

  datatype Pc =
    | Idle
    | Opening(w: nat)
    | Waiting(w: nat)
    | Cancelled(w: nat)
    | Draining(w: nat)
    | Leaving(w: nat, result: Option<Uri>, waited: bool)
    | Returned(w: nat, result: Option<Uri>, waited: bool)
    | Refused

  datatype Action =
    | Begin(expectation: Expectation)
    | OpenBrowser(fails: bool)
    | Receive
    | ContextEnds
    | Unregister
    | Poll
    | Leave
    | Forget
    | Deliver(callback: Uri)

  function Retire(sh: Shared, w: nat): Shared
    requires w in sh.waiters
  {
    Shared(if sh.active == Some(w) then None else sh.active,
           sh.waiters[w := sh.waiters[w].(retired := true)],
           sh.next)
  }

  /** runFlow from its registration on, and DeliverURL by anybody at any time. */
  ghost function Do(sh: Shared, t: Thread, pc: Pc, act: Action): Option<(Shared, Pc)> {
    match act
    case Begin(e) =>
      if !pc.Idle? then None
      else if sh.active.Some? then Some((sh, Refused))
      else
        Some((Shared(Some(sh.next),
                     sh.waiters[sh.next := Waiter(e, None, false, [], false, t)],
                     sh.next + 1),
              Opening(sh.next)))
    case OpenBrowser(fails) =>
      if !pc.Opening? then None
      else Some((sh, if fails then Leaving(pc.w, None, false) else Waiting(pc.w)))
    case Receive =>
      if pc.Waiting? && pc.w in sh.waiters && sh.waiters[pc.w].queue.Some? then
        Some((sh.(waiters := sh.waiters[pc.w := sh.waiters[pc.w].(queue := None)]),
              Leaving(pc.w, sh.waiters[pc.w].queue, true)))
      else None
    case ContextEnds => if pc.Waiting? then Some((sh, Cancelled(pc.w))) else None
    case Unregister =>
      if pc.Cancelled? && pc.w in sh.waiters then Some((Retire(sh, pc.w), Draining(pc.w))) else None
    case Poll =>
      if pc.Draining? && pc.w in sh.waiters then
        Some((sh.(waiters := sh.waiters[pc.w := sh.waiters[pc.w].(queue := None)]),
              Leaving(pc.w, sh.waiters[pc.w].queue, true)))
      else None
    case Leave =>
      if pc.Leaving? && pc.w in sh.waiters then
        Some((Retire(sh, pc.w), Returned(pc.w, pc.result, pc.waited)))
      else None
    case Forget => if pc.Returned? || pc.Refused? then Some((sh, Idle)) else None
    case Deliver(c) =>
      if sh.active.Some? && sh.active.value in sh.waiters
         && !sh.waiters[sh.active.value].delivered
         && Matches(sh.waiters[sh.active.value].expectation, c) then
        var w := sh.waiters[sh.active.value];
        Some((sh.(waiters := sh.waiters[sh.active.value := w.(queue := Some(c), delivered := true,
                                                              accepted := w.accepted + [c])]),
              pc))
      else Some((sh, pc))
  }

  datatype System = System(shared: Shared, pcs: map<Thread, Pc>)

  function PcOf(s: System, t: Thread): Pc {
    if t in s.pcs then s.pcs[t] else Idle
  }

  ghost function Step(s: System, t: Thread, act: Action): Option<System> {
    match Do(s.shared, t, PcOf(s, t), act)
    case None => None
    case Some((sh, pc)) => Some(System(sh, s.pcs[t := pc]))
  }

  ghost predicate Next(s: System, s': System) {
    exists t, act :: Step(s, t, act) == Some(s')
  }

  ghost predicate IsRun(run: seq<System>) {
    && |run| > 0
    && run[0] == System(Shared(None, map[], 0), map[])
    && forall i :: 0 <= i < |run| - 1 ==> Next(run[i], run[i + 1])
  }

  // ----- invariant --------------------------------------------------------------

  /** At most one callback, a matching one, is ever accepted for a waiter. */
  ghost predicate WaiterOk(w: Waiter) {
    && |w.accepted| <= 1
    && (w.delivered <==> w.accepted != [])
    && (forall c :: c in w.accepted ==> Matches(w.expectation, c))
  }

  ghost predicate Global(sh: Shared) {
    && (forall w :: w in sh.waiters ==> w < sh.next && WaiterOk(sh.waiters[w]))
    && (sh.active.Some? ==> sh.active.value in sh.waiters && !sh.waiters[sh.active.value].retired)
  }

  function FirstOf(s: seq<Uri>): Option<Uri> {
    if s == [] then None else Some(s[0])
  }

  ghost predicate Mine(sh: Shared, t: Thread, w: nat) {
    w in sh.waiters && sh.waiters[w].owner == t
  }

  ghost predicate Fits(sh: Shared, t: Thread, pc: Pc) {
    match pc
    case Opening(w) => Mine(sh, t, w) && sh.active == Some(w) && Queued(sh.waiters[w])
    case Waiting(w) => Mine(sh, t, w) && sh.active == Some(w) && Queued(sh.waiters[w])
    case Cancelled(w) => Mine(sh, t, w) && sh.active == Some(w) && Queued(sh.waiters[w])
    case Draining(w) => Mine(sh, t, w) && sh.waiters[w].retired && Queued(sh.waiters[w])
    case Leaving(w, result, waited) =>
      && Mine(sh, t, w)
      && (!sh.waiters[w].retired ==> sh.active == Some(w))
      && (waited ==>
            && (sh.waiters[w].retired || sh.waiters[w].delivered)
            && result == FirstOf(sh.waiters[w].accepted))
      && (!waited ==> result == None)
    case Returned(w, result, waited) =>
      && Mine(sh, t, w) && sh.waiters[w].retired
      && result == if waited then FirstOf(sh.waiters[w].accepted) else None
    case _ => true
  }

  /** Nothing accepted has been taken out of the queue yet. */
  ghost predicate Queued(w: Waiter) {
    w.queue == FirstOf(w.accepted)
  }

  /** Others may serve my waiter while it is the active one, and nothing else. */
  ghost predicate Rely(t: Thread, sh: Shared, sh': Shared) {
    forall w :: Mine(sh, t, w) ==>
      && Mine(sh', t, w)
      && (sh.active == Some(w) ==> sh'.active == Some(w))
      && sh'.waiters[w].retired == sh.waiters[w].retired
      && (sh'.waiters[w] == sh.waiters[w]
          || (&& !sh.waiters[w].delivered && !sh.waiters[w].retired
              && sh'.waiters[w].delivered && Queued(sh'.waiters[w])))
  }

  lemma StepKeeps(sh: Shared, t: Thread, pc: Pc, act: Action, sh': Shared, pc': Pc)
    requires Global(sh) && Fits(sh, t, pc) && Do(sh, t, pc, act) == Some((sh', pc'))
    ensures Global(sh') && Fits(sh', t, pc')
    ensures forall u :: u != t ==> Rely(u, sh, sh')
  {
    StepRely(sh, t, pc, act, sh', pc') by { hide *; }
    hide Matches, Rely;
  }

  lemma StepRely(sh: Shared, t: Thread, pc: Pc, act: Action, sh': Shared, pc': Pc)
    requires Global(sh) && Fits(sh, t, pc) && Do(sh, t, pc, act) == Some((sh', pc'))
    ensures forall u :: u != t ==> Rely(u, sh, sh')
  {
    hide Matches;
  }

  lemma RelyKeepsFits(t: Thread, pc: Pc, sh: Shared, sh': Shared)
    requires Global(sh) && Global(sh') && Fits(sh, t, pc) && Rely(t, sh, sh')
    ensures Fits(sh', t, pc)
  {
    hide Matches;
  }

  ghost predicate Inv(s: System) {
    Global(s.shared) && forall t :: Fits(s.shared, t, PcOf(s, t))
  }

  lemma {:induction false} RunInv(run: seq<System>, i: nat)
    requires IsRun(run) && i < |run|
    ensures Inv(run[i])
  {
    if i > 0 {
      RunInv(run, i - 1);
      assert Next(run[i - 1], run[i - 1 + 1]);
      var t, act :| Step(run[i - 1], t, act) == Some(run[i]);
      var sh, sh' := run[i - 1].shared, run[i].shared;
      StepKeeps(sh, t, PcOf(run[i - 1], t), act, sh', PcOf(run[i], t));
      hide Do, Global, Fits, Rely;
      forall u ensures Fits(sh', u, PcOf(run[i], u)) {
        if u != t {
          RelyKeepsFits(u, PcOf(run[i - 1], u), sh, sh');
        }
      }
    }
  }

  // ----- main results -----------------------------------------------------------

  /** A flow that reached its wait returns exactly what DeliverURL accepted for it before
      it was unregistered: that callback when there is one, an error otherwise -- however
      its cancellation races with the delivery. */
  lemma ReturnsWhatWasAccepted(run: seq<System>, i: nat, t: Thread)
    requires IsRun(run) && i < |run| && PcOf(run[i], t).Returned? && PcOf(run[i], t).waited
    ensures
      var pc := PcOf(run[i], t);
      && pc.w in run[i].shared.waiters
      && run[i].shared.waiters[pc.w].owner == t
      && |run[i].shared.waiters[pc.w].accepted| <= 1
      && pc.result == FirstOf(run[i].shared.waiters[pc.w].accepted)
      && (pc.result.Some? ==> Matches(run[i].shared.waiters[pc.w].expectation, pc.result.value))
  {
    RunInv(run, i);
    assert Fits(run[i].shared, t, PcOf(run[i], t));
    var w := run[i].shared.waiters[PcOf(run[i], t).w];
    assert WaiterOk(w);
    if w.accepted != [] {
      assert w.accepted[0] in w.accepted;
    }
  }

  /** One step accepts at most one callback, for the registered waiter only; nothing is
      accepted for a waiter that was unregistered or already served. */
  lemma OnlyTheActiveWaiterIsServed(run: seq<System>, i: nat, w: nat)
    requires IsRun(run) && i + 1 < |run| && w in run[i].shared.waiters
    ensures w in run[i + 1].shared.waiters
    ensures
      var before, after := run[i].shared.waiters[w], run[i + 1].shared.waiters[w];
      after.accepted != before.accepted ==>
        && run[i].shared.active == Some(w)
        && !before.retired && !before.delivered
        && before.accepted == [] && |after.accepted| == 1
  {
    hide Do, Fits, WaiterOk, Matches;
    RunInv(run, i);
    assert Next(run[i], run[i + 1]);
    var t, act :| Step(run[i], t, act) == Some(run[i + 1]);
    StepServes(run[i].shared, t, PcOf(run[i], t), act, run[i + 1].shared, PcOf(run[i + 1], t), w);
  }

  lemma StepServes(sh: Shared, t: Thread, pc: Pc, act: Action, sh': Shared, pc': Pc, w: nat)
    requires Global(sh) && w in sh.waiters
    requires Do(sh, t, pc, act) == Some((sh', pc'))
    ensures w in sh'.waiters
    ensures sh'.waiters[w].accepted != sh.waiters[w].accepted ==>
              && sh.active == Some(w)
              && !sh.waiters[w].retired && !sh.waiters[w].delivered
              && sh.waiters[w].accepted == [] && |sh'.waiters[w].accepted| == 1
  {
    hide Matches;
    assert WaiterOk(sh.waiters[w]);
  }

  /** The flow is registered: it has not given its waiter back yet. */
  predicate Registered(s: System, t: Thread) {
    var pc := PcOf(s, t);
    || pc.Opening? || pc.Waiting? || pc.Cancelled?
    || (pc.Leaving? && pc.w in s.shared.waiters && !s.shared.waiters[pc.w].retired)
  }

  /** At most one browser flow is registered at a time, and its waiter is the active one. */
  lemma OneFlowAtATime(run: seq<System>, i: nat, t: Thread, u: Thread)
    requires IsRun(run) && i < |run|
    requires Registered(run[i], t) && Registered(run[i], u)
    ensures t == u && run[i].shared.active == Some(PcOf(run[i], t).w)
  {
    RunInv(run, i);
    assert Fits(run[i].shared, t, PcOf(run[i], t));
    assert Fits(run[i].shared, u, PcOf(run[i], u));
  }
}
