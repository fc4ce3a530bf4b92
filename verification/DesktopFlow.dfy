/**
 The desktop callback broker (desktopflow/desktopflow.go): one loopback server shared by
 every flow, with a grace period before it closes. Class Broker is the object; Broking
 is the broker under any interleaving of flows, callbacks and late timers.
*/
module DesktopFlow {
  import opened Basics

  /** The broker's state as a value. A timer is named by a number; `armed` are the
      timers that have not fired, `firing` those whose callback has started and waits for
      the lock -- stopping one of these has no effect. */
  datatype State = State(
    waiters: map<string, nat>,
    running: bool,
    graceTimer: Option<nat>,
    armed: set<nat>,
    firing: set<nat>,
    nextTimer: nat)

  const CLOSED := State(map[], false, None, {}, {}, 0)

  // ----- keys -------------------------------------------------------------------

  const NUL: char := '\0'

  function CallbackKey(path: string, state: string): string {
    path + [NUL] + state
  }

  predicate NulFree(s: string) {
    forall i :: 0 <= i < |s| ==> s[i] != NUL
  }

  /** The key of a registered pair belongs to no other pair exactly when the pair holds no
      NUL. A decoded path or state may hold one, so the condition is needed. */
  lemma KeysSeparateIff(path: string, state: string)
    ensures (forall p, s :: CallbackKey(p, s) == CallbackKey(path, state) ==> p == path && s == state)
            <==> NulFree(path) && NulFree(state)
  {
    if NulFree(path) && NulFree(state) {
      forall p, s | CallbackKey(p, s) == CallbackKey(path, state) ensures p == path && s == state {
        SplitIsUnique(path, state, p, s);
      }
    } else if !NulFree(path) {
      var i :| 0 <= i < |path| && path[i] == NUL;
      var p, s := path[..i], path[i + 1..] + [NUL] + state;
      assert path == path[..i] + [NUL] + path[i + 1..];
      assert CallbackKey(p, s) == CallbackKey(path, state);
      assert |p| < |path|;
    } else {
      var i :| 0 <= i < |state| && state[i] == NUL;
      var p, s := path + [NUL] + state[..i], state[i + 1..];
      assert state == state[..i] + [NUL] + state[i + 1..];
      assert CallbackKey(p, s) == CallbackKey(path, state);
      assert |p| > |path|;
    }
  }

  /** The only NUL of a NUL-free pair's key is the separator. */
  lemma SeparatorPosition(path: string, state: string, i: nat)
    requires NulFree(path) && NulFree(state) && i < |CallbackKey(path, state)|
    ensures CallbackKey(path, state)[i] == NUL <==> i == |path|
  {}

  lemma SplitIsUnique(path: string, state: string, p: string, s: string)
    requires NulFree(path) && NulFree(state) && CallbackKey(p, s) == CallbackKey(path, state)
    ensures p == path && s == state
  {
    var key := CallbackKey(path, state);
    assert key[|p|] == CallbackKey(p, s)[|p|] == NUL;
    SeparatorPosition(path, state, |p|);
    assert p == key[..|p|] && path == key[..|path|];
    assert s == key[|p| + 1..] && state == key[|path| + 1..];
  }

  // ----- what each section does -------------------------------------------------

  function Schedule(b: State): State {
    if b.waiters == map[] && b.running && b.graceTimer.None? then
      b.(graceTimer := Some(b.nextTimer), armed := b.armed + {b.nextTimer}, nextTimer := b.nextTimer + 1)
    else b
  }

  function StopTimer(b: State): State {
    if b.graceTimer.Some? then b.(graceTimer := None, armed := b.armed - {b.graceTimer.value}) else b
  }

  /** The new state, and whether the waiter was registered. */
  function Register(b: State, key: string, channel: nat, binds: bool): (State, bool) {
    if key in b.waiters then (b, false)
    else
      var stopped := StopTimer(b);
      if !stopped.running && !binds then (stopped, false)
      else (stopped.(running := true, waiters := stopped.waiters[key := channel]), true)
  }

  function Deregister(b: State, key: string): State {
    if key !in b.waiters then b else Schedule(b.(waiters := b.waiters - {key}))
  }

  function GraceShutdown(b: State): State {
    var cleared := b.(graceTimer := None);
    if b.waiters != map[] || !b.running then cleared else cleared.(running := false)
  }

  // ----- the object -------------------------------------------------------------

  class Broker {
    var waiters: map<string, nat>
    var running: bool
    var graceTimer: Option<nat>
    // the runtime's timers
    var armed: set<nat>
    ghost var firing: set<nat>
    var nextTimer: nat

    ghost function View(): State reads this {
      State(waiters, running, graceTimer, armed, firing, nextTimer)
    }

    ghost predicate Valid() reads this {
      BrokerOk(View())
    }

    constructor ()
      ensures Valid() && View() == CLOSED
    {
      waiters, running, graceTimer := map[], false, None;
      armed, firing, nextTimer := {}, {}, 0;
    }

    method RegisterWaiter(key: string, channel: nat, binds: bool) returns (ok: bool)
      requires Valid()
      modifies this
      ensures Valid() && (View(), ok) == Register(old(View()), key, channel, binds)
      ensures ok ==> running && graceTimer == None && waiters == old(waiters)[key := channel]
      ensures !ok ==> waiters == old(waiters)
    {
      if key in waiters {
        return false;
      }
      if graceTimer.Some? {
        armed := armed - {graceTimer.value};
        graceTimer := None;
      }
      if !running {
        if !binds {
          return false;
        }
        running := true;
      }
      waiters := waiters[key := channel];
      return true;
    }

    method DeregisterWaiter(key: string)
      requires Valid()
      modifies this
      ensures Valid() && View() == Deregister(old(View()), key)
      ensures waiters == old(waiters) - {key}
    {
      if key !in waiters {
        return;
      }
      waiters := waiters - {key};
      ScheduleShutdown();
    }

    method ScheduleShutdown()
      modifies this
      ensures View() == Schedule(old(View()))
    {
      if waiters == map[] && running && graceTimer.None? {
        graceTimer := Some(nextTimer);
        armed := armed + {nextTimer};
        nextTimer := nextTimer + 1;
      }
    }

    /** The callback of a fired timer, recorded or stale. */
    method Shutdown()
      requires Valid()
      modifies this
      ensures Valid() && View() == GraceShutdown(old(View()))
      ensures running == (old(running) && old(waiters) != map[])
      ensures waiters == old(waiters)
    {
      graceTimer := None;
      if waiters != map[] || !running {
        return;
      }
      running := false;
    }

    /** The lookup of a callback: its waiter is taken out before anything is sent. */
    method TakeWaiter(key: string) returns (channel: Option<nat>)
      requires Valid()
      modifies this
      ensures Valid() && View() == Deregister(old(View()), key)
      ensures channel == if key in old(waiters) then Some(old(waiters)[key]) else None
      ensures key !in waiters
    {
      if key !in waiters {
        return None;
      }
      channel := Some(waiters[key]);
      waiters := waiters - {key};
      ScheduleShutdown();
    }
  }

  // ----- the broker's invariant -------------------------------------------------

  /** A registered waiter means a running server that nobody is about to close by the
      recorded timer; an idle running server means exactly that a shutdown is recorded
      and still on its way. */
  ghost predicate BrokerOk(b: State) {
    && (b.waiters != map[] ==> b.running && b.graceTimer.None?)
    && (b.running && b.waiters == map[] ==>
          b.graceTimer.Some? && (b.graceTimer.value in b.armed || b.graceTimer.value in b.firing))
    && (b.graceTimer.Some? ==> b.running)
    && (forall id :: id in b.armed || id in b.firing ==> id < b.nextTimer)
    && b.armed !! b.firing
  }

  lemma SectionsKeepBroker(b: State, key: string, channel: nat, binds: bool, id: nat)
    requires BrokerOk(b)
    ensures BrokerOk(Register(b, key, channel, binds).0)
    ensures BrokerOk(Deregister(b, key))
    ensures BrokerOk(GraceShutdown(b))
    ensures id in b.armed ==> BrokerOk(b.(armed := b.armed - {id}, firing := b.firing + {id}))
    ensures id in b.firing ==> BrokerOk(GraceShutdown(b.(firing := b.firing - {id})))
  {}
}

module Broking {
  import opened Basics
  import opened DesktopFlow

  type Thread = nat

  /** A flow of `runFlow`, or a request handler. */
  datatype Pc =
    | Idle
    | Registered(key: string, channel: nat)
    | Leaving(key: string)
    | Sending(channel: nat, query: string)
    | Ended

  /** Per channel: how often it was sent to, and what is in its one-place buffer. */
  datatype Channel = Channel(sends: nat, buffer: Option<string>)

  datatype Shared = Shared(broker: State, channels: map<nat, Channel>, nextChannel: nat)

  datatype Action =
    | Begin(path: string, state: string, binds: bool)
    | Receive
    | GiveUp
    | Finish
    | Request(path: string, state: string, query: string)
    | Send
    | TimerFires(id: nat)
    | TimerCallback(id: nat)
    | Restart

  function Do(sh: Shared, t: Thread, pc: Pc, act: Action): Option<(Shared, Pc)> {
    match act
    case Begin(path, state, binds) =>
      if !pc.Idle? then None
      else
        var key := CallbackKey(path, state);
        var (b, ok) := Register(sh.broker, key, sh.nextChannel, binds);
        Some((Shared(b, sh.channels[sh.nextChannel := Channel(0, None)], sh.nextChannel + 1),
              if ok then Registered(key, sh.nextChannel) else Ended))
    case Receive =>
      if pc.Registered? && pc.channel in sh.channels && sh.channels[pc.channel].buffer.Some? then
        Some((sh.(channels := sh.channels[pc.channel := sh.channels[pc.channel].(buffer := None)]),
              Leaving(pc.key)))
      else None
    case GiveUp =>
      // The browser does not open, or the context ends.
      if pc.Registered? then Some((sh, Leaving(pc.key))) else None
    case Finish =>
      if pc.Leaving? then Some((sh.(broker := Deregister(sh.broker, pc.key)), Ended)) else None
    case Request(path, state, query) =>
      if !pc.Idle? then None
      else
        var key := CallbackKey(path, state);
        if key in sh.broker.waiters then
          Some((sh.(broker := Deregister(sh.broker, key)), Sending(sh.broker.waiters[key], query)))
        else Some((sh, Ended))
    case Send =>
      // A full buffer would block the handler.
      if pc.Sending? && pc.channel in sh.channels && sh.channels[pc.channel].buffer.None? then
        var c := sh.channels[pc.channel];
        Some((sh.(channels := sh.channels[pc.channel := Channel(c.sends + 1, Some(pc.query))]), Ended))
      else None
    case TimerFires(id) =>
      if id in sh.broker.armed then
        Some((sh.(broker := sh.broker.(armed := sh.broker.armed - {id}, firing := sh.broker.firing + {id})),
              pc))
      else None
    case TimerCallback(id) =>
      if id in sh.broker.firing then
        Some((sh.(broker := GraceShutdown(sh.broker.(firing := sh.broker.firing - {id}))), pc))
      else None
    case Restart => if pc.Ended? then Some((sh, Idle)) else None
  }

  datatype System = System(shared: Shared, pcs: map<Thread, Pc>)

  function PcOf(s: System, t: Thread): Pc {
    if t in s.pcs then s.pcs[t] else Idle
  }

  function Step(s: System, t: Thread, act: Action): Option<System> {
    match Do(s.shared, t, PcOf(s, t), act)
    case None => None
    case Some((sh, pc)) => Some(System(sh, s.pcs[t := pc]))
  }

  const INITIAL := System(Shared(CLOSED, map[], 0), map[])

  datatype Label = Label(thread: Thread, action: Action)

  datatype Run = Run(states: seq<System>, labels: seq<Label>)

  ghost predicate IsRun(r: Run) {
    && |r.states| == |r.labels| + 1
    && r.states[0] == INITIAL
    && forall i :: 0 <= i < |r.labels| ==> IsStep(r, i)
  }

  ghost predicate IsStep(r: Run, i: nat)
    requires |r.states| == |r.labels| + 1 && i < |r.labels|
  {
    Step(r.states[i], r.labels[i].thread, r.labels[i].action) == Some(r.states[i + 1])
  }

  // ----- invariant --------------------------------------------------------------

  /** Waiters have distinct channels that nobody has sent to. */
  ghost predicate ChannelsOk(sh: Shared) {
    && (forall c :: c in sh.channels ==>
          c < sh.nextChannel && sh.channels[c].sends <= 1 && (sh.channels[c].buffer.Some? ==> sh.channels[c].sends == 1))
    && (forall k :: k in sh.broker.waiters ==>
          sh.broker.waiters[k] in sh.channels && sh.channels[sh.broker.waiters[k]].sends == 0)
    && (forall k, m :: k in sh.broker.waiters && m in sh.broker.waiters && k != m ==>
          sh.broker.waiters[k] != sh.broker.waiters[m])
  }

  ghost predicate Global(sh: Shared) {
    BrokerOk(sh.broker) && ChannelsOk(sh)
  }

  /** A handler is the only one that can still send to the channel it took. */
  ghost predicate Fits(sh: Shared, pc: Pc) {
    && (pc.Sending? ==>
          && pc.channel in sh.channels && sh.channels[pc.channel].sends == 0
          && pc.channel !in sh.broker.waiters.Values)
    && (pc.Registered? ==> pc.channel in sh.channels)
  }

  ghost predicate Apart(pc: Pc, other: Pc) {
    pc.Sending? && other.Sending? ==> pc.channel != other.channel
  }

  ghost predicate Inv(s: System) {
    && Global(s.shared)
    && (forall t :: Fits(s.shared, PcOf(s, t)))
    && (forall t, u :: t != u ==> Apart(PcOf(s, t), PcOf(s, u)))
  }

  lemma ActorKeeps(sh: Shared, t: Thread, pc: Pc, act: Action, sh': Shared, pc': Pc)
    requires Global(sh) && Fits(sh, pc) && Do(sh, t, pc, act) == Some((sh', pc'))
    ensures Global(sh') && Fits(sh', pc')
  {
    hide BrokerOk, ChannelsOk, Do, Fits;
    BrokerKeeps(sh, t, pc, act, sh', pc');
    ChannelsKeep(sh, t, pc, act, sh', pc');
    ActorFits(sh, t, pc, act, sh', pc');
  }

  lemma ActorFits(sh: Shared, t: Thread, pc: Pc, act: Action, sh': Shared, pc': Pc)
    requires ChannelsOk(sh) && Fits(sh, pc) && Do(sh, t, pc, act) == Some((sh', pc'))
    ensures Fits(sh', pc')
  {}

  lemma ChannelsKeep(sh: Shared, t: Thread, pc: Pc, act: Action, sh': Shared, pc': Pc)
    requires ChannelsOk(sh) && Fits(sh, pc) && Do(sh, t, pc, act) == Some((sh', pc'))
    ensures ChannelsOk(sh')
  {}

  lemma BrokerKeeps(sh: Shared, t: Thread, pc: Pc, act: Action, sh': Shared, pc': Pc)
    requires BrokerOk(sh.broker) && Do(sh, t, pc, act) == Some((sh', pc'))
    ensures BrokerOk(sh'.broker)
  {
    hide BrokerOk, Register, Deregister, GraceShutdown;
    var b := sh.broker;
    match act
    case Begin(path, state, binds) =>
      SectionsKeepBroker(b, CallbackKey(path, state), sh.nextChannel, binds, 0);
    case Finish => SectionsKeepBroker(b, pc.key, 0, false, 0);
    case Request(path, state, _) => SectionsKeepBroker(b, CallbackKey(path, state), 0, false, 0);
    case TimerFires(id) => SectionsKeepBroker(b, "", 0, false, id);
    case TimerCallback(id) => SectionsKeepBroker(b, "", 0, false, id);
    case _ =>
  }

  /** Nobody else's channel is touched, and a channel that a handler takes was a
      waiter's. */
  lemma OthersKeep(sh: Shared, t: Thread, pc: Pc, act: Action, sh': Shared, pc': Pc, other: Pc)
    requires Global(sh) && Fits(sh, pc) && Fits(sh, other) && Apart(pc, other)
    requires Do(sh, t, pc, act) == Some((sh', pc'))
    ensures Fits(sh', other) && Apart(pc', other) && Apart(other, pc')
  {
    hide BrokerOk;
  }

  lemma {:induction false} RunInv(r: Run, i: nat)
    requires IsRun(r) && i < |r.states|
    ensures Inv(r.states[i])
  {
    if i > 0 {
      RunInv(r, i - 1);
      assert IsStep(r, i - 1);
      var t, act := r.labels[i - 1].thread, r.labels[i - 1].action;
      var s, s' := r.states[i - 1], r.states[i];
      ActorKeeps(s.shared, t, PcOf(s, t), act, s'.shared, PcOf(s', t));
      hide Do, Global, Fits, Apart;
      forall u
        ensures Fits(s'.shared, PcOf(s', u))
        ensures u != t ==> Apart(PcOf(s', t), PcOf(s', u)) && Apart(PcOf(s', u), PcOf(s', t))
      {
        if u != t {
          assert Apart(PcOf(s, t), PcOf(s, u));
          OthersKeep(s.shared, t, PcOf(s, t), act, s'.shared, PcOf(s', t), PcOf(s, u));
        }
      }
      forall u, v | u != v ensures Apart(PcOf(s', u), PcOf(s', v)) {
        if u != t && v != t { assert Apart(PcOf(s, u), PcOf(s, v)); }
      }
    }
  }

  // ----- main results -----------------------------------------------------------

  /** While any flow waits, the server runs and no recorded timer can close it; when no
      flow waits and the server runs, its shutdown is recorded and on its way. */
  lemma ServerFollowsWaiters(r: Run, i: nat)
    requires IsRun(r) && i < |r.states|
    ensures
      var b := r.states[i].shared.broker;
      && (b.waiters != map[] ==> b.running && b.graceTimer.None?)
      && (b.running && b.waiters == map[] ==>
            b.graceTimer.Some? && (b.graceTimer.value in b.armed || b.graceTimer.value in b.firing))
      && (!b.running ==> b.waiters == map[] && b.graceTimer.None?)
  {
    RunInv(r, i);
  }

  /** No timer callback, however late, closes the server while a flow waits. */
  lemma StaleTimersAreHarmless(r: Run, i: nat)
    requires IsRun(r) && i < |r.labels|
    requires r.states[i].shared.broker.waiters != map[]
    requires r.labels[i].action.TimerCallback? || r.labels[i].action.TimerFires?
    ensures r.states[i + 1].shared.broker.running
    ensures r.states[i + 1].shared.broker.waiters == r.states[i].shared.broker.waiters
  {
    RunInv(r, i);
    assert IsStep(r, i);
  }

  /** Every channel is sent to at most once, so the send outside the lock finds an empty
      buffer and never blocks. */
  lemma SendsNeverBlock(r: Run, i: nat, t: Thread)
    requires IsRun(r) && i < |r.states|
    ensures forall c :: c in r.states[i].shared.channels ==> r.states[i].shared.channels[c].sends <= 1
    ensures PcOf(r.states[i], t).Sending? ==> Step(r.states[i], t, Send).Some?
  {
    RunInv(r, i);
    assert Fits(r.states[i].shared, PcOf(r.states[i], t));
  }

  /** A request reaches exactly the waiter registered under its own key: with a NUL-free
      pair, the one that registered this path and state. */
  lemma RequestsReachTheirFlow(r: Run, i: nat, path: string, state: string)
    requires IsRun(r) && i < |r.labels| && r.labels[i].action.Request?
    requires NulFree(path) && NulFree(state)
    requires CallbackKey(path, state) in r.states[i].shared.broker.waiters
    ensures
      var request, channel := r.labels[i].action,
                              r.states[i].shared.broker.waiters[CallbackKey(path, state)];
      var pc := PcOf(r.states[i + 1], r.labels[i].thread);
      pc.Sending? && pc.channel == channel ==> request.path == path && request.state == state
  {
    RunInv(r, i);
    assert IsStep(r, i);
    var request := r.labels[i].action;
    var waiters := r.states[i].shared.broker.waiters;
    var key, asked := CallbackKey(path, state), CallbackKey(request.path, request.state);
    KeysSeparateIff(path, state);
    if asked in waiters && waiters[asked] == waiters[key] {
      assert asked == key;
      assert request.path == path && request.state == state;
    }
  }

  // ----- reusing a key ----------------------------------------------------------

  /** A flow removes its waiter by key, so the waiter of a later flow with the same path
      and state can be removed by the earlier one, which was already answered. */
  lemma SameKeyLosesWaiter() returns (r: Run, i: nat)
    ensures IsRun(r) && i + 1 < |r.states|
    ensures r.labels[i].thread == 0 && PcOf(r.states[i], 1).Registered?
    ensures
      var pc, before, after := PcOf(r.states[i], 1), r.states[i].shared.broker, r.states[i + 1].shared.broker;
      && pc.key in before.waiters && before.waiters[pc.key] == pc.channel
      && pc.key !in after.waiters
      && PcOf(r.states[i + 1], 1) == pc
  {
    var begin, request := Begin("/callback", "s", true), Request("/callback", "s", "q");
    var s0 := INITIAL;
    var s1 := Step(s0, 0, begin).value;
    var s2 := Step(s1, 2, request).value;
    var s3 := Step(s2, 2, Send).value;
    var s4 := Step(s3, 1, begin).value;
    var s5 := Step(s4, 0, Receive).value;
    var s6 := Step(s5, 0, Finish).value;
    r := Run([s0, s1, s2, s3, s4, s5, s6],
             [Label(0, begin), Label(2, request), Label(2, Send), Label(1, begin), Label(0, Receive),
              Label(0, Finish)]);
    i := 5;
  }

  /** Exactly these steps remove a waiter: a request for its key, and the end of a flow
      that registered the same key. */
  lemma WaitersLeaveByKey(r: Run, i: nat, key: string)
    requires IsRun(r) && i < |r.labels| && key in r.states[i].shared.broker.waiters
    ensures
      var act, pc := r.labels[i].action, PcOf(r.states[i], r.labels[i].thread);
      key !in r.states[i + 1].shared.broker.waiters <==>
        || (act.Request? && CallbackKey(act.path, act.state) == key)
        || (act.Finish? && pc.Leaving? && pc.key == key)
    ensures key in r.states[i + 1].shared.broker.waiters ==>
              r.states[i + 1].shared.broker.waiters[key] == r.states[i].shared.broker.waiters[key]
  {
    assert IsStep(r, i);
  }

  predicate Owns(s: System, key: string, channel: nat) {
    key in s.shared.broker.waiters && s.shared.broker.waiters[key] == channel
  }

  /** Step `k` answers the flow: a request takes its channel out of the broker. */
  ghost predicate AnsweredAt(r: Run, k: nat, key: string, channel: nat)
    requires IsRun(r) && k < |r.labels|
  {
    && Owns(r.states[k], key, channel)
    && r.labels[k].action.Request?
    && CallbackKey(r.labels[k].action.path, r.labels[k].action.state) == key
  }

  /** Step `k` is the end of a flow with this key. */
  ghost predicate EndsAt(r: Run, k: nat, key: string)
    requires IsRun(r) && k < |r.labels|
  {
    var pc := PcOf(r.states[k], r.labels[k].thread);
    r.labels[k].action.Finish? && pc.Leaving? && pc.key == key
  }

  /** A channel that no waiter has is not registered again. */
  lemma ChannelsAreNew(r: Run, k: nat, key: string, channel: nat)
    requires IsRun(r) && k < |r.labels| && channel in r.states[k].shared.channels
    requires !Owns(r.states[k], key, channel)
    ensures channel in r.states[k + 1].shared.channels && !Owns(r.states[k + 1], key, channel)
  {
    RunInv(r, k);
    assert IsStep(r, k);
  }

  /** The waiter a flow has registered is still its own at state `j`, or a request has
      answered it, or it was lost to the end of another flow with the same key while it was
      still unanswered -- exactly one of them. */
  lemma {:induction false} FateOfAWaiter(r: Run, i: nat, j: nat, key: string, channel: nat)
    requires IsRun(r) && i <= j < |r.states| && Owns(r.states[i], key, channel)
    ensures channel in r.states[j].shared.channels
    ensures Owns(r.states[j], key, channel) <==>
              forall k :: i <= k < j ==> !AnsweredAt(r, k, key, channel) && !LostAt(r, k, key, channel)
    ensures !((exists k :: i <= k < j && AnsweredAt(r, k, key, channel))
              && (exists k :: i <= k < j && LostAt(r, k, key, channel)))
    decreases j
  {
    RunInv(r, i);
    hide Do, Inv, AnsweredAt, LostAt, Owns;
    if i == j {
      OwnedExists(r.states[i], key, channel);
    } else {
      FateOfAWaiter(r, i, j - 1, key, channel);
      OneStep(r, j - 1, key, channel);
    }
  }

  lemma OwnedExists(s: System, key: string, channel: nat)
    requires Inv(s) && Owns(s, key, channel)
    ensures channel in s.shared.channels
  {}

  /** Step `k` ends another flow with this key while this one is unanswered. */
  ghost predicate LostAt(r: Run, k: nat, key: string, channel: nat)
    requires IsRun(r) && k < |r.labels|
  {
    Owns(r.states[k], key, channel) && EndsAt(r, k, key)
  }

  lemma OneStep(r: Run, k: nat, key: string, channel: nat)
    requires IsRun(r) && k < |r.labels| && channel in r.states[k].shared.channels
    ensures channel in r.states[k + 1].shared.channels
    ensures Owns(r.states[k + 1], key, channel) <==>
              && Owns(r.states[k], key, channel)
              && !AnsweredAt(r, k, key, channel) && !LostAt(r, k, key, channel)
    ensures AnsweredAt(r, k, key, channel) || LostAt(r, k, key, channel) ==>
              Owns(r.states[k], key, channel)
    ensures !(AnsweredAt(r, k, key, channel) && LostAt(r, k, key, channel))
  {
    if Owns(r.states[k], key, channel) {
      RunInv(r, k);
      WaitersLeaveByKey(r, k, key);
      ChannelsStay(r, k);
    } else {
      ChannelsAreNew(r, k, key, channel);
    }
    hide IsRun, Inv, Do;
  }

  lemma ChannelsStay(r: Run, k: nat)
    requires IsRun(r) && k < |r.labels|
    ensures forall c :: c in r.states[k].shared.channels ==> c in r.states[k + 1].shared.channels
  {
    assert IsStep(r, k);
  }

  /** A flow that stays registered keeps its own channel until it is answered if and only
      if no flow with the same key -- another one, for the same path and state when they
      are NUL-free -- ends before it is answered. */
  lemma FlowKeepsItsChannel(r: Run, i: nat, j: nat, t: Thread)
    requires IsRun(r) && i <= j < |r.states|
    requires PcOf(r.states[i], t).Registered?
    requires Owns(r.states[i], PcOf(r.states[i], t).key, PcOf(r.states[i], t).channel)
    requires forall m :: i <= m <= j ==> PcOf(r.states[m], t) == PcOf(r.states[i], t)
    ensures
      var key, channel := PcOf(r.states[i], t).key, PcOf(r.states[i], t).channel;
      (Owns(r.states[j], key, channel) || exists k :: i <= k < j && AnsweredAt(r, k, key, channel))
      <==> forall k :: i <= k < j && EndsAt(r, k, key) ==>
             exists m :: i <= m < k && AnsweredAt(r, m, key, channel)
    ensures forall k :: i <= k < j && EndsAt(r, k, PcOf(r.states[i], t).key) ==> r.labels[k].thread != t
  {
    var key, channel := PcOf(r.states[i], t).key, PcOf(r.states[i], t).channel;
    forall k | i <= k < j && EndsAt(r, k, key) ensures r.labels[k].thread != t {
      assert PcOf(r.states[k], t) == PcOf(r.states[i], t);
    }
    hide AnsweredAt, EndsAt, Owns, Do, IsRun;
    FateOfAWaiter(r, i, j, key, channel);
    if Owns(r.states[j], key, channel) || exists k :: i <= k < j && AnsweredAt(r, k, key, channel) {
      forall k | i <= k < j && EndsAt(r, k, key)
        ensures exists m :: i <= m < k && AnsweredAt(r, m, key, channel)
      {
        assert !LostAt(r, k, key, channel);
        FateOfAWaiter(r, i, k, key, channel);
      }
    }
    forall k | i <= k < j && LostAt(r, k, key, channel)
      ensures EndsAt(r, k, key) && forall m :: i <= m < k ==> !AnsweredAt(r, m, key, channel)
    {
      LostMeans(r, k, key, channel);
      FateOfAWaiter(r, i, k, key, channel);
    }
  }

  lemma LostMeans(r: Run, k: nat, key: string, channel: nat)
    requires IsRun(r) && k < |r.labels| && LostAt(r, k, key, channel)
    ensures Owns(r.states[k], key, channel) && EndsAt(r, k, key)
  {}
}
