/**
 The declared lock order of a Client (client.go:30-46): what every operation acquires,
 and that no interleaving of any number of threads can deadlock on the six mutexes.
*/
module LockOrder {
  import opened Basics

  datatype Lock = InitMu | LifecycleMu | StateCommitMu | RefreshMu | Mu | EventMu

  function Rank(l: Lock): nat
    ensures 1 <= Rank(l) <= 6
  {
    match l
    case InitMu => 1
    case LifecycleMu => 2
    case StateCommitMu => 3
    case RefreshMu => 4
    case Mu => 5
    case EventMu => 6
  }

  // ----- code as lock operations ------------------------------------------------

  /** `Persist` is a call into the token store; `Wait` is anything that may block for
      other reasons: a token endpoint, a finished attempt, the flow permit, a wake
      channel, an emitter callback. */
  datatype Code =
    | Skip
    | Then(first: Code, second: Code)
    | Under(lock: Lock, body: Code)
    | Either(left: Code, right: Code)
    | Persist
    | Wait

  datatype Item = Acquire(lock: Lock) | Release(lock: Lock) | Store | Block

  /** The straight-line executions of `code`; `choices` resolves its branches. */
  function Trace(code: Code, choices: seq<bool>): seq<Item>
    decreases code
  {
    match code
    case Skip => []
    case Then(a, b) => Trace(a, Odd(choices)) + Trace(b, Even(choices))
    case Under(l, body) => [Acquire(l)] + Trace(body, choices) + [Release(l)]
    case Either(a, b) =>
      if choices != [] && choices[0] then Trace(a, choices[1..])
      else Trace(b, if choices == [] then [] else choices[1..])
    case Persist => [Store]
    case Wait => [Block]
  }

  /** Two independent supplies of choices out of one. */
  function Odd(s: seq<bool>): seq<bool> {
    if |s| < 2 then s else [s[0]] + Odd(s[2..])
  }

  function Even(s: seq<bool>): seq<bool> {
    if |s| < 2 then [] else [s[1]] + Even(s[2..])
  }

  // ----- what the operations do -------------------------------------------------

  const MU := Under(Mu, Skip)
  const ENQUEUE := Under(EventMu, Skip)

  /** drainEvents with `n` deliveries (events.go:73-89). */
  function Drain(n: nat): Code {
    if n == 0 then ENQUEUE else Then(ENQUEUE, Then(Wait, Drain(n - 1)))
  }

  function OptionalDrain(n: nat): Code {
    Either(Drain(n), Skip)
  }

  const COMMIT := Then(MU, SAVE)

  /** The operations, with the number of deliveries that follow them. */
  datatype Operation =
    | ReadState                       // client.go:172, accesstoken.go:86, claims.go:54
    | RestoreSession
    | BeginInit
    | ReadEndpoints                   // client.go:369
    | FailInit(deliveries: nat)
    | CommitInit
    | AccessToken
    | BeginRefreshAttempt(passes: nat)
    | WaitForRefreshAttempt
    | RunRefreshAttempt(deliveries: nat)
    | RunRefreshLoop(deliveries: nat)
    | RetryPersistence
    | BeginLogin
    | RunLifecycleFlow
    | CommitLogin(deliveries: nat)
    | Logout(deliveries: nat)
    | FinishLifecycleOperation

  /** refresh.go:206-291: one turn of the loop per pass, waiting in between. */
  function BeginAttempt(passes: nat): Code {
    var pass := Under(RefreshMu, MU);
    if passes == 0 then pass else Then(pass, Then(Wait, BeginAttempt(passes - 1)))
  }

  /** Save, record the result under mu, enqueue. */
  const SAVE := Then(Persist, Then(Either(MU, Skip), ENQUEUE))

  /** refresh.go:117-175: each check may end it. */
  const INSTALL_REFUSAL := Then(MU, Either(Skip, SAVE))
  const LOAD_STORE := Then(Persist, Either(Skip, INSTALL_REFUSAL))
  const REFUSAL := Under(StateCommitMu, Then(MU, Either(Skip, LOAD_STORE)))

  const LOAD_SESSION := Then(Persist, Either(MU, Skip))

  /** refresh.go:465-479. */
  const COMMIT_REFRESH := Under(StateCommitMu, Then(MU, Either(Skip, SAVE)))

  const EMIT_IF_CURRENT := Under(StateCommitMu, Then(MU, Either(ENQUEUE, Skip)))
  const RETRY_SAVE := Under(StateCommitMu, Then(MU, Either(Skip, Then(Persist, MU))))
  const LOGIN_COMMIT := Under(LifecycleMu, Either(Skip, Under(StateCommitMu, Either(Skip, COMMIT))))
  const LOGOUT_COMMIT := Under(LifecycleMu, Under(StateCommitMu, Then(MU, Then(Persist, ENQUEUE))))
  const CURRENT := Under(LifecycleMu, Skip)
  const INIT := Under(InitMu, Skip)
  const HANDLER := Then(CURRENT, Then(Wait, CURRENT))

  /** Grant and commit, refusal, and the end of the attempt (refresh.go:76-94). */
  function Attempt(n: nat): Code {
    var grant := Then(MU, Then(Wait, Either(MU, COMMIT_REFRESH)));
    var close := Then(Under(RefreshMu, Either(MU, Skip)), OptionalDrain(n));
    Then(grant, Then(Either(REFUSAL, Skip), close))
  }

  function CodeOf(op: Operation): Code {
    match op
    case ReadState => MU
    case RestoreSession => Under(StateCommitMu, Then(MU, Either(Skip, LOAD_SESSION)))
    case BeginInit => INIT
    case ReadEndpoints => Then(Wait, MU)
    case FailInit(n) => Then(Under(InitMu, Either(ENQUEUE, Skip)), Then(OptionalDrain(n), INIT))
    case CommitInit => Then(Under(InitMu, MU), INIT)
    case AccessToken => Then(MU, Then(Either(MU, Skip), Then(Either(MU, Skip), MU)))
    case BeginRefreshAttempt(n) => BeginAttempt(n)
    case WaitForRefreshAttempt => Then(Wait, Then(Under(RefreshMu, Skip), Either(MU, Skip)))
    case RunRefreshAttempt(n) => Attempt(n)
    case RunRefreshLoop(n) => Then(MU, Either(Wait, Either(MU, Then(EMIT_IF_CURRENT, OptionalDrain(n)))))
    case RetryPersistence => Then(MU, Either(Wait, RETRY_SAVE))
    case BeginLogin => Then(MU, CURRENT)
    case RunLifecycleFlow => Then(CURRENT, Then(CURRENT, Then(Wait, Either(Skip, HANDLER))))
    case CommitLogin(n) => Then(LOGIN_COMMIT, OptionalDrain(n))
    case Logout(n) =>
      var first := Then(LOGOUT_COMMIT, Then(OptionalDrain(n), Then(CURRENT, Wait)));
      Then(Either(MU, Skip), Either(CURRENT, first))
    case FinishLifecycleOperation => Under(LifecycleMu, Skip)
  }

  // ----- the discipline ---------------------------------------------------------

  /** Locks are taken in increasing rank, the store is called without mu or anything
      above it, and whatever may block otherwise is reached without any lock.
      `floor` is the rank of the innermost lock held, 0 for none. */
  predicate Disciplined(code: Code, floor: nat) {
    match code
    case Skip => true
    case Then(a, b) => Disciplined(a, floor) && Disciplined(b, floor)
    case Under(l, body) => floor < Rank(l) && Disciplined(body, Rank(l))
    case Either(a, b) => Disciplined(a, floor) && Disciplined(b, floor)
    case Persist => floor < Rank(RefreshMu)
    case Wait => floor == 0
  }

  lemma {:induction false} DrainIsDisciplined(n: nat)
    ensures Disciplined(Drain(n), 0)
  {
    if n > 0 {
      DrainIsDisciplined(n - 1);
      assert Disciplined(ENQUEUE, 0);
    }
  }

  lemma {:induction false} BeginAttemptIsDisciplined(passes: nat)
    ensures Disciplined(BeginAttempt(passes), 0)
  {
    if passes > 0 {
      BeginAttemptIsDisciplined(passes - 1);
    }
    assert Disciplined(Under(RefreshMu, MU), 0);
  }

  lemma OptionalDrainIsDisciplined(n: nat)
    ensures Disciplined(OptionalDrain(n), 0)
  {
    DrainIsDisciplined(n);
    assert Disciplined(Skip, 0);
  }

  /** A drain comes last, with no lock held. */
  lemma BeforeDrain(code: Code, n: nat)
    requires Disciplined(code, 0)
    ensures Disciplined(Then(code, OptionalDrain(n)), 0)
  {
    OptionalDrainIsDisciplined(n);
  }

  lemma AttemptIsDisciplined(n: nat)
    ensures Disciplined(Attempt(n), 0)
  {
    assert Disciplined(Under(RefreshMu, Either(MU, Skip)), 0);
    BeforeDrain(Under(RefreshMu, Either(MU, Skip)), n);
    assert Disciplined(SAVE, 3);
    assert Disciplined(INSTALL_REFUSAL, 3);
    assert Disciplined(LOAD_STORE, 3);
    assert Disciplined(REFUSAL, 0);
    assert Disciplined(COMMIT_REFRESH, 0);
    assert Disciplined(Then(MU, Then(Wait, Either(MU, COMMIT_REFRESH))), 0);
  }

  lemma CommitsAreDisciplined()
    ensures Disciplined(LOGIN_COMMIT, 0) && Disciplined(LOGOUT_COMMIT, 0)
    ensures Disciplined(EMIT_IF_CURRENT, 0) && Disciplined(RETRY_SAVE, 0)
    ensures Disciplined(HANDLER, 0) && Disciplined(INIT, 0) && Disciplined(CURRENT, 0)
  {
    assert Disciplined(SAVE, 3);
    assert Disciplined(COMMIT, 3);
  }

  /** Every operation of the Client keeps the declared order. */
  lemma OperationsAreDisciplined(op: Operation)
    ensures Disciplined(CodeOf(op), 0)
  {
    CommitsAreDisciplined();
    match op
    case FailInit(n) =>
      assert Disciplined(Under(InitMu, Either(ENQUEUE, Skip)), 0);
      OptionalDrainIsDisciplined(n);
      assert Disciplined(Then(OptionalDrain(n), INIT), 0);
    case BeginRefreshAttempt(n) => BeginAttemptIsDisciplined(n);
    case RunRefreshAttempt(n) => AttemptIsDisciplined(n);
    case RunRefreshLoop(n) =>
      BeforeDrain(EMIT_IF_CURRENT, n);
      assert Disciplined(Either(MU, Then(EMIT_IF_CURRENT, OptionalDrain(n))), 0);
    case CommitLogin(n) => BeforeDrain(LOGIN_COMMIT, n);
    case Logout(n) =>
      OptionalDrainIsDisciplined(n);
      assert Disciplined(Then(OptionalDrain(n), Then(CURRENT, Wait)), 0);
    case _ =>
  }

  // ----- threads ----------------------------------------------------------------

  type Thread = nat

  /** What a thread still has to do; `held` is the stack of its locks. */
  datatype Local = Local(todo: seq<Item>, held: seq<Lock>)

  datatype System = System(owner: map<Lock, Thread>, locals: map<Thread, Local>)

  const IDLE := Local([], [])

  function LocalOf(s: System, t: Thread): Local {
    if t in s.locals then s.locals[t] else IDLE
  }

  datatype Action = Start(op: Operation, choices: seq<bool>) | Run

  function Do(s: System, t: Thread, a: Action): Option<System> {
    var me := LocalOf(s, t);
    match a
    case Start(op, choices) =>
      if me.todo != [] then None
      else Some(s.(locals := s.locals[t := Local(Trace(CodeOf(op), choices), me.held)]))
    case Run =>
      if me.todo == [] then None
      else
        var rest := me.todo[1..];
        match me.todo[0]
        case Acquire(l) =>
          if l in s.owner then None
          else Some(System(s.owner[l := t], s.locals[t := Local(rest, me.held + [l])]))
        case Release(l) =>
          Some(System(s.owner - {l},
                      s.locals[t := Local(rest, if me.held == [] then [] else me.held[..|me.held| - 1])]))
        case Store => Some(s.(locals := s.locals[t := Local(rest, me.held)]))
        case Block => Some(s.(locals := s.locals[t := Local(rest, me.held)]))
  }

  ghost predicate IsRun(run: seq<System>) {
    && |run| > 0
    && run[0] == System(map[], map[])
    && forall i :: 0 <= i < |run| - 1 ==> Next(run[i], run[i + 1])
  }

  ghost predicate Next(s: System, s': System) {
    exists t, a :: Do(s, t, a) == Some(s')
  }

  // ----- one thread keeps the order ---------------------------------------------

  function Top(held: seq<Lock>): nat {
    if held == [] then 0 else Rank(held[|held| - 1])
  }

  /** The remaining items respect the order from the locks held, and give all of them
      back. */
  predicate Ordered(todo: seq<Item>, held: seq<Lock>)
    decreases todo
  {
    if todo == [] then held == []
    else
      match todo[0]
      case Acquire(l) => Top(held) < Rank(l) && Ordered(todo[1..], held + [l])
      case Release(l) => held != [] && held[|held| - 1] == l && Ordered(todo[1..], held[..|held| - 1])
      case Store => Top(held) < Rank(RefreshMu) && Ordered(todo[1..], held)
      case Block => held == [] && Ordered(todo[1..], held)
  }

  lemma {:induction false} TraceIsOrdered(code: Code, choices: seq<bool>, held: seq<Lock>, rest: seq<Item>)
    requires Disciplined(code, Top(held)) && Ordered(rest, held)
    ensures Ordered(Trace(code, choices) + rest, held)
    decreases code
  {
    match code
    case Skip => assert Trace(code, choices) + rest == rest;
    case Then(a, b) =>
      TraceIsOrdered(b, Even(choices), held, rest);
      TraceIsOrdered(a, Odd(choices), held, Trace(b, Even(choices)) + rest);
      assert Trace(code, choices) + rest
          == Trace(a, Odd(choices)) + (Trace(b, Even(choices)) + rest);
    case Under(l, body) =>
      var inner := held + [l];
      var after := [Release(l)] + rest;
      assert inner[..|inner| - 1] == held && after[1..] == rest;
      assert Ordered(after, inner);
      TraceIsOrdered(body, choices, inner, after);
      var all := Trace(code, choices) + rest;
      assert all[1..] == Trace(body, choices) + after;
    case Either(a, b) =>
      if choices != [] && choices[0] {
        TraceIsOrdered(a, choices[1..], held, rest);
      } else {
        TraceIsOrdered(b, if choices == [] then [] else choices[1..], held, rest);
      }
    case Persist => assert ([Store] + rest)[1..] == rest;
    case Wait => assert ([Block] + rest)[1..] == rest;
  }

  /** Locks are held in the order of their ranks, innermost last. */
  predicate Sorted(held: seq<Lock>) {
    forall i, j :: 0 <= i < j < |held| ==> Rank(held[i]) < Rank(held[j])
  }

  ghost predicate Owns(s: System, t: Thread) {
    && Ordered(LocalOf(s, t).todo, LocalOf(s, t).held)
    && Sorted(LocalOf(s, t).held)
    && forall l :: l in LocalOf(s, t).held <==> l in s.owner && s.owner[l] == t
  }

  ghost predicate Inv(s: System) {
    forall t :: Owns(s, t)
  }

  lemma ActorOwns(s: System, t: Thread, a: Action, s': System)
    requires Owns(s, t) && Do(s, t, a) == Some(s')
    ensures Owns(s', t)
  {
    hide *;
    match a
    case Start(op, choices) => StartOwns(s, t, op, choices, s');
    case Run => RunOwns(s, t, s');
  }

  lemma StartOwns(s: System, t: Thread, op: Operation, choices: seq<bool>, s': System)
    requires Owns(s, t) && Do(s, t, Start(op, choices)) == Some(s')
    ensures Owns(s', t)
  {
    OperationsAreDisciplined(op);
    TraceIsOrdered(CodeOf(op), choices, [], []);
    assert Trace(CodeOf(op), choices) + [] == Trace(CodeOf(op), choices);
    hide Trace, CodeOf, Disciplined;
  }

  lemma RunOwns(s: System, t: Thread, s': System)
    requires Owns(s, t) && Do(s, t, Run) == Some(s')
    ensures Owns(s', t)
  {
    hide *;
    var me := LocalOf(s, t);
    if me.todo == [] {
      IdleDoesNotRun(s, t);
    } else if me.todo[0].Acquire? {
      AcquireOwns(s, t, s');
    } else if me.todo[0].Release? {
      ReleaseOwns(s, t, s');
    } else {
      PassOwns(s, t, s');
    }
  }

  lemma IdleDoesNotRun(s: System, t: Thread)
    ensures LocalOf(s, t).todo == [] ==> Do(s, t, Run).None?
  {}

  lemma AcquireOwns(s: System, t: Thread, s': System)
    requires Owns(s, t) && Do(s, t, Run) == Some(s')
    requires LocalOf(s, t).todo != [] && LocalOf(s, t).todo[0].Acquire?
    ensures Owns(s', t)
  {
    HigherThanTop(LocalOf(s, t).held, LocalOf(s, t).todo[0].lock);
  }

  lemma ReleaseOwns(s: System, t: Thread, s': System)
    requires Owns(s, t) && Do(s, t, Run) == Some(s')
    requires LocalOf(s, t).todo != [] && LocalOf(s, t).todo[0].Release?
    ensures Owns(s', t)
  {
    var me, me' := LocalOf(s, t), LocalOf(s', t);
    var l := me.todo[0].lock;
    assert me.held == me'.held + [l];
    LastIsNotBelow(me'.held, l);
    forall k ensures k in me'.held <==> k in s'.owner && s'.owner[k] == t {
      assert k in me.held <==> k in me'.held || k == l;
    }
  }

  lemma LastIsNotBelow(held: seq<Lock>, l: Lock)
    requires Sorted(held + [l])
    ensures Sorted(held) && l !in held
  {
    var all := held + [l];
    forall i | 0 <= i < |held| ensures held[i] != l {
      assert all[i] == held[i] && all[|held|] == l;
    }
    forall i, j | 0 <= i < j < |held| ensures Rank(held[i]) < Rank(held[j]) {
      assert all[i] == held[i] && all[j] == held[j];
    }
  }

  lemma PassOwns(s: System, t: Thread, s': System)
    requires Owns(s, t) && Do(s, t, Run) == Some(s')
    requires LocalOf(s, t).todo != []
    requires !LocalOf(s, t).todo[0].Acquire? && !LocalOf(s, t).todo[0].Release?
    ensures Owns(s', t)
  {}

  lemma HigherThanTop(held: seq<Lock>, l: Lock)
    requires Sorted(held) && Top(held) < Rank(l)
    ensures forall h :: h in held ==> Rank(h) < Rank(l)
    ensures Sorted(held + [l])
  {}

  lemma StepKeepsInv(s: System, t: Thread, a: Action, s': System)
    requires Inv(s) && Do(s, t, a) == Some(s')
    ensures Inv(s')
  {
    assert Owns(s, t);
    ActorOwns(s, t, a, s');
    forall u ensures Owns(s', u) {
      if u != t {
        assert Owns(s, u) && LocalOf(s', u) == LocalOf(s, u);
      }
    }
  }

  lemma {:induction false} RunInv(run: seq<System>, i: nat)
    requires IsRun(run) && i < |run|
    ensures Inv(run[i])
  {
    if i > 0 {
      RunInv(run, i - 1);
      assert Next(run[i - 1], run[i - 1 + 1]);
      var t, a :| Do(run[i - 1], t, a) == Some(run[i]);
      StepKeepsInv(run[i - 1], t, a, run[i]);
    }
  }

  // ----- no deadlock ------------------------------------------------------------

  /** Thread `t` is stopped at a mutex that `u` holds. */
  predicate WaitsFor(s: System, t: Thread, u: Thread) {
    var todo := LocalOf(s, t).todo;
    && todo != [] && todo[0].Acquire?
    && todo[0].lock in s.owner && s.owner[todo[0].lock] == u
  }

  ghost predicate IsChain(s: System, chain: seq<Thread>) {
    forall i :: 0 <= i < |chain| - 1 ==> WaitsFor(s, chain[i], chain[i + 1])
  }

  function Wanted(s: System, t: Thread): nat {
    var todo := LocalOf(s, t).todo;
    if todo != [] && todo[0].Acquire? then Rank(todo[0].lock) else 7
  }

  /** A thread waits for a lock above every lock it holds. */
  lemma WantsHigher(s: System, t: Thread, u: Thread)
    requires Inv(s) && WaitsFor(s, t, u)
    ensures Wanted(s, t) < Wanted(s, u)
  {
    assert Owns(s, t) && Owns(s, u);
    var l := LocalOf(s, t).todo[0].lock;
    assert l in LocalOf(s, u).held;
    if LocalOf(s, u).todo != [] && LocalOf(s, u).todo[0].Acquire? {
      HigherThanTop(LocalOf(s, u).held, LocalOf(s, u).todo[0].lock);
    }
  }

  lemma {:induction false} ChainRises(s: System, chain: seq<Thread>, i: nat, j: nat)
    requires Inv(s) && IsChain(s, chain) && i < j < |chain|
    ensures Wanted(s, chain[i]) < Wanted(s, chain[j])
    decreases j - i
  {
    WantsHigher(s, chain[i], chain[i + 1]);
    if i + 1 < j {
      ChainRises(s, chain, i + 1, j);
    }
  }

  /** In no reachable state do threads wait for each other in a cycle. */
  lemma NoWaitCycle(run: seq<System>, i: nat, chain: seq<Thread>)
    requires IsRun(run) && i < |run| && |chain| >= 2 && IsChain(run[i], chain)
    ensures chain[0] != chain[|chain| - 1]
  {
    RunInv(run, i);
    ChainRises(run[i], chain, 0, |chain| - 1);
  }

  /** The thread at the end of the wait chain from `t` can take a step. */
  lemma {:induction false} Unblocked(s: System, t: Thread)
    requires Inv(s) && LocalOf(s, t).todo != []
    ensures exists u :: Do(s, u, Run).Some?
    decreases 7 - Wanted(s, t)
  {
    if Do(s, t, Run).None? {
      var l := LocalOf(s, t).todo[0].lock;
      var u := s.owner[l];
      assert WaitsFor(s, t, u);
      WantsHigher(s, t, u);
      assert Owns(s, u) && l in LocalOf(s, u).held;
      Unblocked(s, u);
    }
  }

  /** Whatever is reached that may block outside the mutexes is reached without holding
      any of them, and unless every thread is between operations, some thread can take
      its next step. */
  lemma NoDeadlock(run: seq<System>, i: nat, t: Thread)
    requires IsRun(run) && i < |run| && LocalOf(run[i], t).todo != []
    ensures exists u :: Do(run[i], u, Run).Some?
    ensures LocalOf(run[i], t).todo[0].Block? ==> forall l :: l in run[i].owner ==> run[i].owner[l] != t
    ensures LocalOf(run[i], t).todo[0].Store? ==>
              forall l :: l in run[i].owner && run[i].owner[l] == t ==> Rank(l) < Rank(RefreshMu)
  {
    RunInv(run, i);
    Unblocked(run[i], t);
    assert Owns(run[i], t);
    if LocalOf(run[i], t).todo[0].Store? {
      HigherThanTop(LocalOf(run[i], t).held, RefreshMu);
    }
  }
}
