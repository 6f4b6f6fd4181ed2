/**
 * `loadAllSubscriptionDetails` (page.tsx): which identities are refreshed from
 * the authority, the record built from each identity's pair of answers, and
 * the merge of the answers back into the list. The concurrent fan-out is a
 * sequence of answers, one per candidate; `None` is a candidate whose
 * `Promise.all` was rejected.
 */
module Reconciliation {
  import opened Wrappers
  import opened Identities
  import opened Oracle
  import opened Seqs

  /** The `appsNeedingDetails` test: on the current network, and some service unknown or active without details. */
  predicate NeedsDetails(app: Identity, network: Network)
  {
    && app.network == network
    && (|| app.subscriptions.nildb.status == Unknown
        || app.subscriptions.nilai.status == Unknown
        || (app.subscriptions.nildb.status == Active && app.subscriptions.nildb.details.None?)
        || (app.subscriptions.nilai.status == Active && app.subscriptions.nilai.details.None?))
  }

  function NeedsDetailsOn(network: Network): Identity -> bool
  {
    (app: Identity) => NeedsDetails(app, network)
  }

  /** The candidates of a pass, in list order. */
  function AppsNeedingDetails(apps: seq<Identity>, network: Network): (candidates: seq<Identity>)
    ensures forall app :: app in candidates <==> app in apps && NeedsDetails(app, network)
  {
    Filter(apps, NeedsDetailsOn(network))
  }

  /** The guard at the top of the pass: it runs only when connected, not already running, and with work to do. */
  predicate PassRuns(connected: bool, apps: seq<Identity>, loadingDetails: bool, network: Network)
  {
    connected && |apps| > 0 && !loadingDetails && |AppsNeedingDetails(apps, network)| > 0
  }

  /** The per-app value of `subscriptionChecks`: a public key and both new records. */
  datatype CheckResult = CheckResult(publicKey: string, subscriptions: Subscriptions)

  /** One candidate's check: both records from the two answers, or `null` if either query failed. */
  function CheckApp(app: Identity, answer: Option<StatusPair>): (result: Option<CheckResult>)
    ensures result.Some? <==> answer.Some?
    ensures result.Some? ==>
      && result.value.publicKey == app.publicKey
      && result.value.subscriptions.nildb == SubscriptionFromStatus(answer.value.nildb)
      && result.value.subscriptions.nilai == SubscriptionFromStatus(answer.value.nilai)
  {
    match answer
    case None => None
    case Some(pair) =>
      Some(CheckResult(app.publicKey,
        Subscriptions(SubscriptionFromStatus(pair.nildb), SubscriptionFromStatus(pair.nilai))))
  }

  /** `await Promise.all(subscriptionChecks)`. */
  function CheckResults(candidates: seq<Identity>, answers: seq<Option<StatusPair>>): (results: seq<Option<CheckResult>>)
    requires |answers| == |candidates|
    ensures |results| == |candidates|
    ensures forall k :: 0 <= k < |candidates| ==> results[k] == CheckApp(candidates[k], answers[k])
  {
    seq(|candidates|, k requires 0 <= k < |candidates| => CheckApp(candidates[k], answers[k]))
  }

  predicate MatchesKey(result: Option<CheckResult>, publicKey: string)
  {
    result.Some? && result.value.publicKey == publicKey
  }

  /** `results.find(r => r?.publicKey === publicKey)`: the first non-null result for that key. */
  function FindResult(results: seq<Option<CheckResult>>, publicKey: string): (found: Option<CheckResult>)
    ensures found.Some? <==> exists j :: 0 <= j < |results| && MatchesKey(results[j], publicKey)
    ensures found.Some? ==> found.value.publicKey == publicKey
    ensures forall j ::
      (0 <= j < |results| && MatchesKey(results[j], publicKey) &&
       forall k :: 0 <= k < j ==> !MatchesKey(results[k], publicKey)) ==> found == results[j]
  {
    if results == [] then None
    else if MatchesKey(results[0], publicKey) then results[0]
    else
      var rest := FindResult(results[1..], publicKey);
      assert forall j :: 1 <= j < |results| ==> results[j] == results[1..][j - 1];
      assert rest.Some? ==> exists j :: 0 <= j < |results| && MatchesKey(results[j], publicKey) by {
        if rest.Some? {
          var j :| 0 <= j < |results[1..]| && MatchesKey(results[1..][j], publicKey);
          assert MatchesKey(results[j + 1], publicKey);
        }
      }
      rest
  }

  function MergedApp(app: Identity, results: seq<Option<CheckResult>>): Identity
  {
    match FindResult(results, app.publicKey)
    case None => app
    case Some(result) => app.(subscriptions := result.subscriptions)
  }

  /**
   * The `setApps(prevApps => prevApps.map(...))` merge. Length and order are
   * kept; only `subscriptions` can change, and only for an app that some
   * non-null result names, whose first such result it then takes.
   */
  function MergeResults(apps: seq<Identity>, results: seq<Option<CheckResult>>): (merged: seq<Identity>)
    ensures |merged| == |apps|
    ensures forall i :: 0 <= i < |apps| ==> merged[i].(subscriptions := apps[i].subscriptions) == apps[i]
    ensures forall i :: 0 <= i < |apps| && merged[i] != apps[i] ==>
      exists j :: 0 <= j < |results| && MatchesKey(results[j], apps[i].publicKey)
    ensures forall i, j ::
      (0 <= i < |apps| && 0 <= j < |results| && MatchesKey(results[j], apps[i].publicKey) &&
       forall k :: 0 <= k < j ==> !MatchesKey(results[k], apps[i].publicKey)) ==>
      merged[i].subscriptions == results[j].value.subscriptions
  {
    seq(|apps|, i requires 0 <= i < |apps| => MergedApp(apps[i], results))
  }

  /** No two identities share a public key. */
  predicate UniqueKeys(apps: seq<Identity>)
  {
    forall i, j :: 0 <= i < j < |apps| ==> apps[i].publicKey != apps[j].publicKey
  }

  /** Some identity in the list has exactly this public key. */
  predicate ListsKey(apps: seq<Identity>, key: string)
  {
    exists i :: 0 <= i < |apps| && apps[i].publicKey == key
  }

  lemma {:induction false} FilterKeepsKeysUnique(apps: seq<Identity>, keep: Identity -> bool)
    requires UniqueKeys(apps)
    ensures UniqueKeys(Filter(apps, keep))
  {
    if apps != [] {
      var rest := Filter(apps[1..], keep);
      FilterKeepsKeysUnique(apps[1..], keep);
      forall x | x in rest
        ensures x.publicKey != apps[0].publicKey
      {
        var m :| 0 <= m < |apps[1..]| && apps[1..][m] == x;
        assert apps[m + 1] == x;
      }
      var head := if keep(apps[0]) then [apps[0]] else [];
      assert Filter(apps, keep) == head + rest;
      forall i, j | 0 <= i < j < |head + rest|
        ensures (head + rest)[i].publicKey != (head + rest)[j].publicKey
      {
        if head != [] && i == 0 {
          assert (head + rest)[j] == rest[j - 1];
          assert rest[j - 1] in rest;
        } else if head != [] {
          assert (head + rest)[i] == rest[i - 1] && (head + rest)[j] == rest[j - 1];
        }
      }
    }
  }

  /** The merge of a pass never changes a key, so it keeps keys unique. */
  lemma MergeKeepsKeysUnique(apps: seq<Identity>, results: seq<Option<CheckResult>>)
    requires UniqueKeys(apps)
    ensures UniqueKeys(MergeResults(apps, results))
  {
    var merged := MergeResults(apps, results);
    forall i | 0 <= i < |apps|
      ensures merged[i].publicKey == apps[i].publicKey
    {
      assert merged[i].(subscriptions := apps[i].subscriptions) == apps[i];
    }
  }

  /** A candidate whose queries failed keeps exactly its prior state. */
  lemma FailedCheckLeavesAppUnchanged(
    apps: seq<Identity>, candidates: seq<Identity>, answers: seq<Option<StatusPair>>, k: nat, i: nat)
    requires |answers| == |candidates| && UniqueKeys(candidates)
    requires k < |candidates| && answers[k].None?
    requires i < |apps| && apps[i].publicKey == candidates[k].publicKey
    ensures MergeResults(apps, CheckResults(candidates, answers))[i] == apps[i]
  {
    var results := CheckResults(candidates, answers);
    forall j | 0 <= j < |results|
      ensures !MatchesKey(results[j], apps[i].publicKey)
    {
      if j < k {
        assert candidates[j].publicKey != candidates[k].publicKey;
      } else if j > k {
        assert candidates[k].publicKey != candidates[j].publicKey;
      }
    }
  }

  /** A candidate whose queries both answered takes both new records and keeps every other field. */
  lemma SucceededCheckApplied(
    apps: seq<Identity>, candidates: seq<Identity>, answers: seq<Option<StatusPair>>, k: nat, i: nat)
    requires |answers| == |candidates| && UniqueKeys(candidates)
    requires k < |candidates| && answers[k].Some?
    requires i < |apps| && apps[i].publicKey == candidates[k].publicKey
    ensures MergeResults(apps, CheckResults(candidates, answers))[i] ==
      apps[i].(subscriptions := Subscriptions(
        SubscriptionFromStatus(answers[k].value.nildb), SubscriptionFromStatus(answers[k].value.nilai)))
  {
    var results := CheckResults(candidates, answers);
    var merged := MergeResults(apps, results);
    forall j | 0 <= j < k
      ensures !MatchesKey(results[j], apps[i].publicKey)
    {
      assert candidates[j].publicKey != candidates[k].publicKey;
    }
    assert MatchesKey(results[k], apps[i].publicKey);
    assert merged[i].subscriptions == results[k].value.subscriptions;
    assert merged[i].(subscriptions := apps[i].subscriptions) == apps[i];
  }

  /** A response the pass can settle for good: subscribed ones carry details. */
  predicate Settled(response: StatusResponse)
  {
    response.subscribed ==> response.details.Some?
  }

  /** An identity the selection skipped is named by no result, so the merge leaves it alone. */
  lemma SkippedAppUnchanged(apps: seq<Identity>, network: Network, answers: seq<Option<StatusPair>>, i: nat)
    requires UniqueKeys(apps)
    requires |answers| == |AppsNeedingDetails(apps, network)|
    requires i < |apps| && !NeedsDetails(apps[i], network)
    ensures MergeResults(apps, CheckResults(AppsNeedingDetails(apps, network), answers))[i] == apps[i]
  {
    var candidates := AppsNeedingDetails(apps, network);
    var results := CheckResults(candidates, answers);
    forall j | 0 <= j < |results|
      ensures !MatchesKey(results[j], apps[i].publicKey)
    {
      assert candidates[j] in apps;
      var m :| 0 <= m < |apps| && apps[m] == candidates[j];
      assert NeedsDetails(apps[m], network);
      assert apps[m].publicKey != apps[i].publicKey;
    }
  }

  /**
   * When every candidate's queries succeed with settled answers, the pass
   * leaves no candidate behind; otherwise the selection would pick the same
   * identities again.
   */
  lemma {:induction false} SettledPassLeavesNoCandidates(
    apps: seq<Identity>, network: Network, answers: seq<Option<StatusPair>>)
    requires UniqueKeys(apps)
    requires |answers| == |AppsNeedingDetails(apps, network)|
    requires forall k :: 0 <= k < |answers| ==>
      answers[k].Some? && Settled(answers[k].value.nildb) && Settled(answers[k].value.nilai)
    ensures AppsNeedingDetails(MergeResults(apps, CheckResults(AppsNeedingDetails(apps, network), answers)), network) == []
  {
    var candidates := AppsNeedingDetails(apps, network);
    FilterKeepsKeysUnique(apps, NeedsDetailsOn(network));
    var merged := MergeResults(apps, CheckResults(candidates, answers));
    forall i | 0 <= i < |merged|
      ensures !NeedsDetails(merged[i], network)
    {
      if NeedsDetails(apps[i], network) {
        var k :| 0 <= k < |candidates| && candidates[k] == apps[i];
        SucceededCheckApplied(apps, candidates, answers, k, i);
      } else {
        SkippedAppUnchanged(apps, network, answers, i);
      }
    }
    FilterDropsAll(merged, NeedsDetailsOn(network));
  }
}
