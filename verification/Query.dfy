/**
 Matching a callback against what a flow waits for (mobileflow/mobileflow.go:247-371).
 URLs arrive parsed; a query maps every key to its values in order.
*/
module Query {
  import opened Basics

  type Values = map<string, seq<string>>

  // ----- fixed queries ----------------------------------------------------------

  /** Every expected key is there, with the same values in any order. */
  ghost predicate ContainsFixed(actual: Values, expected: Values) {
    forall key :: key in expected ==>
      key in actual && multiset(actual[key]) == multiset(expected[key])
  }

  ghost predicate EqualQueries(actual: Values, expected: Values) {
    |actual| == |expected| && ContainsFixed(actual, expected)
  }

  /** How often a value is still to be matched. */
  predicate Counts(remaining: map<string, nat>, left: multiset<string>) {
    && (forall v :: v in remaining ==> remaining[v] == left[v])
    && (forall v :: v in left ==> v in remaining)
  }

  method CountValues(values: seq<string>) returns (remaining: map<string, nat>)
    ensures Counts(remaining, multiset(values))
  {
    remaining := map[];
    for i := 0 to |values|
      invariant Counts(remaining, multiset(values[..i]))
    {
      ghost var before := multiset(values[..i]);
      assert values[..i + 1] == values[..i] + [values[i]];
      assert multiset(values[..i + 1]) == before + multiset{values[i]};
      var seen := if values[i] in remaining then remaining[values[i]] else 0;
      remaining := remaining[values[i] := seen + 1];
    }
    assert values[..|values|] == values;
  }

  /** The counting loops over the two value lists of one key. */
  method SameValues(actual: seq<string>, expected: seq<string>) returns (same: bool)
    requires |actual| == |expected|
    ensures same <==> multiset(actual) == multiset(expected)
  {
    var remaining := CountValues(actual);
    ghost var left := multiset(actual);
    for i := 0 to |expected|
      invariant multiset(actual) == left + multiset(expected[..i])
      invariant Counts(remaining, left)
    {
      var value := expected[i];
      if value !in remaining || remaining[value] == 0 {
        MissingOne(actual, expected, i, left);
        return false;
      }
      assert expected[..i + 1] == expected[..i] + [value];
      assert multiset(expected[..i + 1]) == multiset(expected[..i]) + multiset{value};
      UseOne(remaining, left, value);
      remaining := remaining[value := remaining[value] - 1];
      left := left - multiset{value};
    }
    assert expected[..|expected|] == expected;
    SizesAgree(actual, expected, left);
    return true;
  }

  lemma UseOne(remaining: map<string, nat>, left: multiset<string>, value: string)
    requires Counts(remaining, left) && value in remaining && remaining[value] > 0
    ensures Counts(remaining[value := remaining[value] - 1], left - multiset{value})
    ensures value in left
  {}

  lemma MissingOne(actual: seq<string>, expected: seq<string>, i: nat, left: multiset<string>)
    requires i < |expected| && multiset(actual) == left + multiset(expected[..i])
    requires expected[i] !in left
    ensures multiset(actual) != multiset(expected)
  {
    var v := expected[i];
    assert expected == expected[..i] + [v] + expected[i + 1..];
    assert multiset(expected)[v] >= multiset(expected[..i])[v] + 1;
  }

  lemma SizesAgree(actual: seq<string>, expected: seq<string>, left: multiset<string>)
    requires |actual| == |expected| && multiset(actual) == left + multiset(expected)
    ensures multiset(actual) == multiset(expected)
  {
    assert |left| + |multiset(expected)| == |multiset(actual)|;
  }

  /** containsFixedQuery: the keys are visited in any order. */
  method ContainsFixedQuery(actual: Values, expected: Values) returns (found: bool)
    ensures found <==> ContainsFixed(actual, expected)
  {
    var keys := expected.Keys;
    while keys != {}
      invariant keys <= expected.Keys
      invariant forall key :: key in expected && key !in keys ==>
                  key in actual && multiset(actual[key]) == multiset(expected[key])
      decreases |keys|
    {
      var key :| key in keys;
      if key !in actual || |actual[key]| != |expected[key]| {
        if key in actual {
          assert |multiset(actual[key])| != |multiset(expected[key])|;
        }
        return false;
      }
      var same := SameValues(actual[key], expected[key]);
      if !same {
        return false;
      }
      keys := keys - {key};
    }
    return true;
  }

  method EqualQueryValues(actual: Values, expected: Values) returns (equal: bool)
    ensures equal <==> EqualQueries(actual, expected)
  {
    if |actual| != |expected| {
      return false;
    }
    equal := ContainsFixedQuery(actual, expected);
  }

  /** Though it compares in one direction only, equality of queries means the same keys
      with the same values: the number of keys closes the other direction. */
  lemma EqualMeansSameKeys(a: Values, b: Values)
    ensures EqualQueries(a, b) <==>
              a.Keys == b.Keys && forall key :: key in a ==> multiset(a[key]) == multiset(b[key])
  {
    assert |a| == |a.Keys| && |b| == |b.Keys|;
    if EqualQueries(a, b) {
      assert b.Keys <= a.Keys;
      SubsetOfSameSize(b.Keys, a.Keys);
    }
  }

  lemma SubsetOfSameSize(s: set<string>, t: set<string>)
    requires s <= t && |s| == |t|
    ensures s == t
  {
    assert |t - s| == |t| - |s|;
    assert t - s == {};
  }

  /** Query equality is an equivalence relation. */
  lemma EqualQueriesIsEquivalence(a: Values, b: Values, c: Values)
    ensures EqualQueries(a, a)
    ensures EqualQueries(a, b) ==> EqualQueries(b, a)
    ensures EqualQueries(a, b) && EqualQueries(b, c) ==> EqualQueries(a, c)
  {
    EqualMeansSameKeys(a, b);
    EqualMeansSameKeys(b, a);
    EqualMeansSameKeys(b, c);
    EqualMeansSameKeys(a, c);
  }

  // ----- URIs -------------------------------------------------------------------

  /** A parsed URL; `host` is the host name without its port. */
  datatype Uri = Uri(
    scheme: string,
    omitHost: bool,
    hasUser: bool,
    fragment: string,
    host: string,
    port: string,
    emptyPort: bool,
    path: string,
    query: Values)

  function Fold(c: char): char {
    if 'A' <= c <= 'Z' then c + ' ' else c
  }

  /** strings.EqualFold on ASCII text. */
  predicate EqualFold(a: string, b: string) {
    |a| == |b| && forall i :: 0 <= i < |a| ==> Fold(a[i]) == Fold(b[i])
  }

  predicate SameCallbackBase(expected: Uri, actual: Uri) {
    && EqualFold(expected.scheme, actual.scheme)
    && expected.omitHost == actual.omitHost
    && !expected.hasUser && !actual.hasUser
    && expected.fragment == "" && actual.fragment == ""
    && EqualFold(expected.host, actual.host)
    && expected.port == actual.port
    && expected.emptyPort == actual.emptyPort
    && expected.path == actual.path
  }

  ghost predicate SameRedirectUri(expected: Uri, actual: Uri) {
    SameCallbackBase(expected, actual) && EqualQueries(actual.query, expected.query)
  }

  /** What parseCallbackURI lets through (mobileflow/mobileflow.go:276-303). */
  predicate IsCallbackUri(u: Uri) {
    !u.hasUser && u.fragment == ""
  }

  /** Among callback URIs, naming the same redirect is an equivalence. */
  lemma SameRedirectIsEquivalence(a: Uri, b: Uri, c: Uri)
    requires IsCallbackUri(a)
    ensures SameRedirectUri(a, a)
    ensures SameRedirectUri(a, b) ==> SameRedirectUri(b, a)
    ensures SameRedirectUri(a, b) && SameRedirectUri(b, c) ==> SameRedirectUri(a, c)
  {
    EqualQueriesIsEquivalence(a.query, b.query, c.query);
    EqualQueriesIsEquivalence(b.query, a.query, a.query);
    EqualQueriesIsEquivalence(c.query, b.query, a.query);
  }

  // ----- what a waiter accepts --------------------------------------------------

  datatype Expectation = Expectation(redirect: Uri, state: string, allowMissingState: bool)

  predicate HasAuthorizationResponse(query: Values) {
    || ("code" in query && |query["code"]| != 0)
    || ("error" in query && |query["error"]| != 0)
  }

  /** flowWaiter.matches (mobileflow/mobileflow.go:247-262). */
  ghost predicate Matches(w: Expectation, callback: Uri) {
    && SameCallbackBase(w.redirect, callback)
    && ContainsFixed(callback.query, w.redirect.query)
    && (if "state" !in callback.query then
          w.allowMissingState && !HasAuthorizationResponse(callback.query)
        else callback.query["state"] == [w.state] && w.state != "")
  }

  method MatchesCallback(w: Expectation, callback: Uri) returns (matches: bool)
    ensures matches <==> Matches(w, callback)
  {
    if !SameCallbackBase(w.redirect, callback) {
      return false;
    }
    var fixed := ContainsFixedQuery(callback.query, w.redirect.query);
    if !fixed {
      return false;
    }
    if "state" !in callback.query {
      return w.allowMissingState && !HasAuthorizationResponse(callback.query);
    }
    var states := callback.query["state"];
    if |states| != 1 || states[0] == "" {
      return false;
    }
    return w.state == states[0];
  }

  /** A callback that carries an authorization response is accepted only by the flow
      whose state it returns, and one login flow never accepts what another one does. */
  lemma CallbacksAreCorrelated(w: Expectation, v: Expectation, callback: Uri)
    requires Matches(w, callback)
    ensures HasAuthorizationResponse(callback.query) || !w.allowMissingState ==>
              "state" in callback.query && callback.query["state"] == [w.state]
    ensures Matches(v, callback) && !(w.allowMissingState && v.allowMissingState) ==> v.state == w.state
  {
    if "state" in callback.query && Matches(v, callback) {
      assert [w.state][0] == [v.state][0];
    }
  }

  /** The redirect a flow registers for is one it accepts itself, whatever response
      parameters the provider adds. */
  lemma OwnRedirectIsAccepted(w: Expectation, response: Values)
    requires IsCallbackUri(w.redirect) && w.state != ""
    requires response.Keys !! w.redirect.query.Keys
    requires "state" in response && response["state"] == [w.state]
    ensures Matches(w, w.redirect.(query := w.redirect.query + response))
  {}
}
