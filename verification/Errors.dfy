/**
 Error chains and the classification that guards every refresh decision
 (errors.go). An error is a tree: `fmt.Errorf` with several `%w` verbs wraps
 several causes, and `errors.Is`/`errors.As` search it in pre-order.
*/
module Errors {
  import opened Basics

  datatype Sentinel =
    | SessionIntegrity
    | PermanentlyBlocked
    | NotInitialized
    | ScheduledExpiry
    | ContextDone
    | Opaque

  datatype Error =
    | Leaf(sentinel: Sentinel)
    | Auth(code: string)
    | Wrap(causes: seq<Error>)

  /** What the refresh protocol can learn from an error, in the order in which
      its guards ask. */
  datatype Failure =
    | IntegrityFailure
    | InvalidGrant
    | ClientRefused
    | OtherAuth
    | BlockedPermanently
    | Uninitialized
    | ExpiredBeforeStart
    | Cancelled
    | Transport

  const CREDENTIAL_REFUSED_CODE := "invalid_grant"

  /** errors.go:89-93. */
  predicate PermanentCode(code: string) {
    code == "invalid_grant" || code == "invalid_client" || code == "unauthorized_client"
  }

  // ----- searching the tree ---------------------------------------------------

  predicate Is(e: Error, target: Sentinel) {
    match e
    case Leaf(s) => s == target
    case Auth(_) => false
    case Wrap(causes) => exists i | 0 <= i < |causes| :: Is(causes[i], target)
  }

  /** `errors.As` for *AuthError: the code of the first one in pre-order. */
  function AsAuth(e: Error): Option<string> {
    match e
    case Leaf(_) => None
    case Auth(code) => Some(code)
    case Wrap(causes) => FirstAuth(causes)
  }

  function FirstAuth(causes: seq<Error>): Option<string> {
    if causes == [] then None
    else
      var first := AsAuth(causes[0]);
      if first.Some? then first else FirstAuth(causes[1..])
  }

  // ----- classification -------------------------------------------------------

  predicate IsIntegrity(e: Error) {
    Is(e, SessionIntegrity)
  }

  /** errors.go:112-121. */
  predicate IsCredentialRefused(e: Error) {
    if IsIntegrity(e) then false
    else
      var auth := AsAuth(e);
      auth.Some? && auth.value == CREDENTIAL_REFUSED_CODE
  }

  /** errors.go:127-137. */
  predicate IsPermanent(e: Error) {
    if Is(e, SessionIntegrity) || Is(e, PermanentlyBlocked) then true
    else
      var auth := AsAuth(e);
      auth.Some? && PermanentCode(auth.value)
  }

  /** errors.go:139-144. */
  function NewIntegrityError(cause: Option<Error>): Error {
    match cause
    case None => Wrap([Leaf(SessionIntegrity)])
    case Some(c) => Wrap([Leaf(SessionIntegrity), c])
  }

  /** The class the protocol model works with. */
  function Classify(e: Error): Failure {
    if IsIntegrity(e) then IntegrityFailure
    else if Is(e, PermanentlyBlocked) then BlockedPermanently
    else
      match AsAuth(e)
      case Some(code) =>
        if code == CREDENTIAL_REFUSED_CODE then InvalidGrant
        else if PermanentCode(code) then ClientRefused
        else OtherAuth
      case None =>
        if Is(e, ScheduledExpiry) then ExpiredBeforeStart
        else if Is(e, NotInitialized) then Uninitialized
        else if Is(e, ContextDone) then Cancelled
        else Transport
  }

  predicate Permanent(f: Failure) {
    f.IntegrityFailure? || f.InvalidGrant? || f.ClientRefused? || f.BlockedPermanently?
  }

  /** An OAuth error code proves the provider answered. */
  predicate ProviderAnswered(f: Failure) {
    f.InvalidGrant? || f.ClientRefused? || f.OtherAuth?
  }

  /** On errors that no blocked-generation sentinel hides in (every error a token
      endpoint call can yield), the class decides exactly what the source's
      predicates decide on the tree. */
  lemma ClassifyIsExact(e: Error)
    ensures IsIntegrity(e) <==> Classify(e).IntegrityFailure?
    ensures IsPermanent(e) <==> Permanent(Classify(e))
    ensures !Is(e, PermanentlyBlocked) ==> (IsCredentialRefused(e) <==> Classify(e).InvalidGrant?)
    ensures !IsIntegrity(e) && !Is(e, PermanentlyBlocked) ==>
              (AsAuth(e).Some? <==> ProviderAnswered(Classify(e)))
  {
    assert PermanentCode(CREDENTIAL_REFUSED_CODE);
  }

  /** How an error with an OAuth code is handled, by the code alone: invalid_grant refuses the
      credential; it, invalid_client and unauthorized_client are permanent; any other code
      proves no more than that the provider answered. */
  lemma CodesDecide(e: Error, code: string)
    requires AsAuth(e) == Some(code) && !IsIntegrity(e) && !Is(e, PermanentlyBlocked)
    ensures Classify(e).InvalidGrant? <==> code == "invalid_grant"
    ensures Classify(e).ClientRefused? <==> code in {"invalid_client", "unauthorized_client"}
    ensures Permanent(Classify(e)) <==>
              code in {"invalid_grant", "invalid_client", "unauthorized_client"}
    ensures IsCredentialRefused(e) <==> code == "invalid_grant"
    ensures ProviderAnswered(Classify(e))
  {
    CodesDiffer();
  }

  lemma CodesDiffer()
    ensures "invalid_grant" != "invalid_client" && "invalid_grant" != "unauthorized_client"
  {
    assert "invalid_grant"[8] != "invalid_client"[8];
    assert "invalid_grant"[0] != "unauthorized_client"[0];
  }

  /** Ending grace is narrower than parking: every credential refusal is
      permanent, none is an integrity failure. */
  lemma RefusalIsPermanent(e: Error)
    requires IsCredentialRefused(e)
    ensures IsPermanent(e) && !IsIntegrity(e)
  {
    assert PermanentCode(CREDENTIAL_REFUSED_CODE);
  }

  /** An integrity failure fails closed whatever it wraps, even a refusal. */
  lemma IntegrityNeverReclassified(cause: Option<Error>)
    ensures
      var e := NewIntegrityError(cause);
      IsIntegrity(e) && IsPermanent(e) && !IsCredentialRefused(e)
  {
    var e := NewIntegrityError(cause);
    assert Is(e.causes[0], SessionIntegrity);
  }

  /** Adding context with a single `%w` never changes how an error is handled. */
  lemma WrappingPreservesClass(e: Error)
    ensures Classify(Wrap([e])) == Classify(e)
  {
    var w := Wrap([e]);
    assert forall t :: Is(w, t) <==> Is(e, t) by {
      forall t ensures Is(w, t) <==> Is(e, t) {
        assert w.causes[0] == e;
      }
    }
    assert FirstAuth([e]) == AsAuth(e) by {
      assert [e][1..] == [];
    }
  }
}
