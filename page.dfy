/**
 * The state of `ApiKeysPage` (page.tsx) that the handlers change, and the
 * handlers themselves. The browser's `localStorage` is two maps keyed by
 * wallet address; the remote authority's answers and the generated keypair
 * are parameters.
 *
 * `subscribeToServiceForApp`, `renewSubscriptionForApp` and
 * `loadAllSubscriptionDetails` suspend at their remote calls, and other
 * handlers may run meanwhile. Each is therefore split at that point into a
 * Begin method (what happens before the first `await`) and a Finish method
 * (the state updates after it, including the `finally`); the undivided
 * handler is the two run back to back.
 */
module ApiKeys {
  import opened Wrappers
  import opened Text
  import opened Identities
  import opened Oracle
  import opened Migration
  import opened Reconciliation
  import opened Mutations

  /**
   * How the remote part of a create, subscribe or renew ended: paid, with the
   * best-effort status fetch's answer (`None` if that fetch failed), or
   * failed somewhere before that fetch (client setup, cost query or payment).
   */
  datatype Payment = Paid(status: Option<StatusResponse>) | PaymentFailed(error: ErrorValue)

  datatype CreateOutcome =
    | CreateRejected(reason: ValidationError)
    | CreateFailed(failure: ErrorClass)
    | Created(data: NewAppData)

  datatype ActionOutcome = NotConnected | Succeeded | Failed(failure: ErrorClass)

  /** `localStorage.setItem(`nillion-apps-${address}`, JSON.stringify(apps))`, done only when there is an address. */
  function SaveApps(store: map<string, seq<RawApp>>, wallet: Wallet, apps: seq<Identity>): (saved: map<string, seq<RawApp>>)
    ensures wallet.address.Some? ==> wallet.address.value in saved && saved[wallet.address.value] == SerializeApps(apps)
    ensures forall owner :: owner in store && wallet.address != Some(owner) ==> owner in saved && saved[owner] == store[owner]
    ensures wallet.address.None? ==> saved == store
  {
    if wallet.address.Some? then store[wallet.address.value := SerializeApps(apps)] else store
  }

  /** What a save wrote for the owner loads back as the saved identities, when they are well-formed. */
  lemma SavedListReloads(store: map<string, seq<RawApp>>, wallet: Wallet, apps: seq<Identity>)
    requires wallet.address.Some?
    requires forall i :: 0 <= i < |apps| ==> WellFormed(apps[i])
    ensures MigrateApps(SaveApps(store, wallet, apps)[wallet.address.value]) == apps
  {
    LoadAfterSave(apps);
  }

  class ApiKeysPage {
    var apps: seq<Identity>
    var subscribingApps: set<string>
    var renewingApps: set<string>
    var loadingDetails: bool
    var newAppData: Option<NewAppData>
    /** `nillion-apps-<address>`: the owner's list, as parsed JSON. */
    var storedApps: map<string, seq<RawApp>>
    /** `nillion-main-app-<address>`: the latest created app, without its private key. */
    var storedMainApps: map<string, StoredAppData>

    constructor (storedApps: map<string, seq<RawApp>>, storedMainApps: map<string, StoredAppData>)
      ensures apps == [] && subscribingApps == {} && renewingApps == {}
      ensures !loadingDetails && newAppData == None
      ensures this.storedApps == storedApps && this.storedMainApps == storedMainApps
    {
      apps := [];
      subscribingApps := {};
      renewingApps := {};
      loadingDetails := false;
      newAppData := None;
      this.storedApps := storedApps;
      this.storedMainApps := storedMainApps;
    }

    /** The load effect: the stored list, migrated, or nothing. Loading never writes the store. */
    method LoadApps(wallet: Wallet)
      modifies this`apps
      ensures apps ==
        if wallet.address.Some? && wallet.address.value in storedApps
        then MigrateApps(storedApps[wallet.address.value])
        else []
    {
      if wallet.address.Some? && wallet.address.value in storedApps {
        apps := MigrateApps(storedApps[wallet.address.value]);
      } else {
        apps := [];
      }
    }

    /** The main-app load effect: it only clears the one-time display. */
    method LoadMainApp(wallet: Wallet)
      modifies this`newAppData
      ensures newAppData ==
        if wallet.address.Some? && wallet.address.value in storedMainApps then None else old(newAppData)
    {
      if wallet.address.Some? && wallet.address.value in storedMainApps {
        newAppData := None;
      }
    }

    /** `loadAllSubscriptionDetails` up to its first `await`: the guard, the selection and the flag. */
    method BeginLoadAllSubscriptionDetails(wallet: Wallet, network: Network) returns (candidates: seq<Identity>)
      modifies this`loadingDetails
      ensures candidates ==
        if PassRuns(wallet.isConnected, apps, old(loadingDetails), network)
        then AppsNeedingDetails(apps, network) else []
      ensures candidates != [] <==> PassRuns(wallet.isConnected, apps, old(loadingDetails), network)
      ensures loadingDetails == (old(loadingDetails) || candidates != [])
    {
      candidates := [];
      if !wallet.isConnected || |apps| == 0 || loadingDetails {
        return;
      }
      var selected := AppsNeedingDetails(apps, network);
      if |selected| == 0 {
        return;
      }
      loadingDetails := true;
      candidates := selected;
    }

    /**
     * The rest of the pass: `answers` is `None` when building the client
     * failed, else one answer per candidate. The merge goes into the list as
     * it is now, and the flag is cleared on both paths.
     */
    method FinishLoadAllSubscriptionDetails(candidates: seq<Identity>, answers: Option<seq<Option<StatusPair>>>)
      requires answers.Some? ==> |answers.value| == |candidates|
      modifies this`apps, this`loadingDetails
      ensures !loadingDetails
      ensures apps ==
        if answers.Some? then MergeResults(old(apps), CheckResults(candidates, answers.value)) else old(apps)
      ensures UniqueKeys(old(apps)) ==> UniqueKeys(apps)
    {
      if answers.Some? {
        var results := CheckResults(candidates, answers.value);
        if UniqueKeys(apps) {
          MergeKeepsKeysUnique(apps, results);
        }
        apps := MergeResults(apps, results);
      }
      loadingDetails := false;
    }

    /** A whole pass with nothing interleaved. */
    method LoadAllSubscriptionDetails(wallet: Wallet, network: Network, answers: Option<seq<Option<StatusPair>>>)
      requires answers.Some? ==> |answers.value| == |AppsNeedingDetails(apps, network)|
      modifies this`apps, this`loadingDetails
      ensures PassRuns(wallet.isConnected, old(apps), old(loadingDetails), network) ==>
        && !loadingDetails
        && apps == if answers.Some?
                   then MergeResults(old(apps), CheckResults(AppsNeedingDetails(old(apps), network), answers.value))
                   else old(apps)
      ensures !PassRuns(wallet.isConnected, old(apps), old(loadingDetails), network) ==>
        loadingDetails == old(loadingDetails) && apps == old(apps)
    {
      var candidates := BeginLoadAllSubscriptionDetails(wallet, network);
      if candidates != [] {
        FinishLoadAllSubscriptionDetails(candidates, answers);
      }
    }

    /** The step `createNewApp` and `addExistingApp` share: the new app goes first in the list and the list is saved. */
    method PrependAndSave(wallet: Wallet, app: Identity)
      modifies this`apps, this`storedApps
      ensures apps == [app] + old(apps)
      ensures storedApps == SaveApps(old(storedApps), wallet, apps)
      ensures UniqueKeys(old(apps)) && !ListsKey(old(apps), app.publicKey) ==> UniqueKeys(apps)
    {
      if UniqueKeys(apps) && !ListsKey(apps, app.publicKey) {
        PrependKeepsKeysUnique(app, apps);
      }
      apps := [app] + apps;
      storedApps := SaveApps(storedApps, wallet, apps);
    }

    /**
     * The part of `createNewApp` after validation: the display is cleared, and
     * a settled payment yields the new app, its display data, the saved list
     * and the main-app record, all under the trimmed name.
     */
    method FinishCreateNewApp(wallet: Wallet, network: Network, name: string, service: Service,
                              keypair: Keypair, payment: Payment) returns (outcome: CreateOutcome)
      modifies this`apps, this`newAppData, this`storedApps, this`storedMainApps
      ensures payment.PaymentFailed? ==>
        && outcome == CreateFailed(ClassifyError(payment.error))
        && apps == old(apps) && newAppData == None
        && storedApps == old(storedApps) && storedMainApps == old(storedMainApps)
      ensures payment.Paid? ==>
        var data := NewAppData(name, keypair.privateKey, keypair.publicKey, keypair.did, network);
        && outcome == Created(data)
        && newAppData == Some(data)
        && apps == [NewCreatedApp(name, keypair, network, service, FreshDetails(payment.status))] + old(apps)
        && storedApps == SaveApps(old(storedApps), wallet, apps)
        && storedMainApps ==
             if wallet.address.Some?
             then old(storedMainApps)[wallet.address.value := StoredAppData(name, keypair.publicKey, network)]
             else old(storedMainApps)
      ensures UniqueKeys(old(apps)) && !ListsKey(old(apps), keypair.publicKey) ==> UniqueKeys(apps)
    {
      newAppData := None;
      match payment
      case PaymentFailed(error) =>
        outcome := CreateFailed(ClassifyError(error));
      case Paid(status) =>
        var data := NewAppData(name, keypair.privateKey, keypair.publicKey, keypair.did, network);
        newAppData := Some(data);
        if wallet.address.Some? {
          storedMainApps := storedMainApps[wallet.address.value := StoredAppData(name, keypair.publicKey, network)];
        }
        PrependAndSave(wallet, NewCreatedApp(name, keypair, network, service, FreshDetails(status)));
        outcome := Created(data);
    }

    /**
     * `createNewApp`, run without interleaving. Validation comes first and a
     * refusal changes nothing; a failed payment only clears the display.
     */
    method CreateNewApp(wallet: Wallet, network: Network, appName: string, service: Service,
                        keypair: Keypair, payment: Payment) returns (outcome: CreateOutcome)
      modifies this`apps, this`newAppData, this`storedApps, this`storedMainApps
      ensures var check := ValidateNewApp(wallet.isConnected, old(apps), appName);
        check.Some? ==>
          && outcome == CreateRejected(check.value)
          && apps == old(apps) && newAppData == old(newAppData)
          && storedApps == old(storedApps) && storedMainApps == old(storedMainApps)
      ensures ValidateNewApp(wallet.isConnected, old(apps), appName).None? && payment.PaymentFailed? ==>
        && outcome == CreateFailed(ClassifyError(payment.error))
        && apps == old(apps) && newAppData == None
        && storedApps == old(storedApps) && storedMainApps == old(storedMainApps)
      ensures ValidateNewApp(wallet.isConnected, old(apps), appName).None? && payment.Paid? ==>
        var data := NewAppData(Trim(appName), keypair.privateKey, keypair.publicKey, keypair.did, network);
        && outcome == Created(data)
        && newAppData == Some(data)
        && apps == [NewCreatedApp(Trim(appName), keypair, network, service, FreshDetails(payment.status))] + old(apps)
        && storedApps == SaveApps(old(storedApps), wallet, apps)
        && storedMainApps ==
             if wallet.address.Some?
             then old(storedMainApps)[wallet.address.value := StoredAppData(Trim(appName), keypair.publicKey, network)]
             else old(storedMainApps)
      ensures UniqueKeys(old(apps)) && !ListsKey(old(apps), keypair.publicKey) ==> UniqueKeys(apps)
    {
      var check := ValidateNewApp(wallet.isConnected, apps, appName);
      if check.Some? {
        return CreateRejected(check.value);
      }
      outcome := FinishCreateNewApp(wallet, network, Trim(appName), service, keypair, payment);
    }

    /** `addExistingApp`: validation, then the attached app at the head of the list and in the store. */
    method AddExistingApp(wallet: Wallet, network: Network, appName: string, publicKey: string)
      returns (error: Option<ValidationError>)
      modifies this`apps, this`storedApps
      ensures error == ValidateExistingApp(old(apps), appName, publicKey)
      ensures error.Some? ==> apps == old(apps) && storedApps == old(storedApps)
      ensures error.None? ==>
        && apps == [NewAttachedApp(Trim(appName), Trim(publicKey), network)] + old(apps)
        && storedApps == SaveApps(old(storedApps), wallet, apps)
      ensures UniqueKeys(old(apps)) ==> UniqueKeys(apps)
    {
      error := ValidateExistingApp(apps, appName, publicKey);
      if error.None? {
        if UniqueKeys(apps) {
          AttachKeepsKeysUnique(apps, appName, publicKey, network);
        }
        PrependAndSave(wallet, NewAttachedApp(Trim(appName), Trim(publicKey), network));
      }
    }

    /** `confirmStopTracking`: removes every app with the target's key, in memory and in the store, without any remote call. */
    method ConfirmStopTracking(wallet: Wallet, target: Option<Identity>)
      modifies this`apps, this`storedApps
      ensures target.Some? && wallet.address.Some? ==>
        && apps == WithoutApp(old(apps), target.value.publicKey)
        && storedApps == SaveApps(old(storedApps), wallet, apps)
      ensures target.None? || wallet.address.None? ==> apps == old(apps) && storedApps == old(storedApps)
      ensures UniqueKeys(old(apps)) ==> UniqueKeys(apps)
    {
      if target.Some? && wallet.address.Some? {
        if UniqueKeys(apps) {
          WithoutAppKeepsKeysUnique(apps, target.value.publicKey);
        }
        apps := WithoutApp(apps, target.value.publicKey);
        storedApps := SaveApps(storedApps, wallet, apps);
      }
    }

    /**
     * `subscribeToServiceForApp` up to its first `await`. There is no busy
     * check: the key is added even if present, and only the button's
     * `disabled` state keeps a second call from starting.
     */
    method BeginSubscribe(wallet: Wallet, app: Identity, service: Service) returns (started: bool)
      modifies this`subscribingApps
      ensures started == wallet.isConnected
      ensures subscribingApps ==
        if started then old(subscribingApps) + {SubscriptionKey(app.publicKey, service)} else old(subscribingApps)
      ensures started ==> forall other: Identity :: other.publicKey == app.publicKey ==> !SubscribeEnabled(other, service, subscribingApps)
    {
      started := wallet.isConnected;
      if started {
        subscribingApps := subscribingApps + {SubscriptionKey(app.publicKey, service)};
      }
    }

    /**
     * The rest of the subscribe: on payment, that one service of the apps
     * with that key becomes active; on failure nothing changes. The key is
     * released on both paths and no other key is touched.
     */
    method FinishSubscribe(app: Identity, service: Service, payment: Payment) returns (failure: Option<ErrorClass>)
      modifies this`apps, this`subscribingApps
      ensures failure == if payment.PaymentFailed? then Some(ClassifyError(payment.error)) else None
      ensures apps ==
        if payment.Paid? then MarkActive(old(apps), app.publicKey, service, FreshDetails(payment.status)) else old(apps)
      ensures SubscriptionKey(app.publicKey, service) !in subscribingApps
      ensures forall p, s :: p != app.publicKey || s != service ==>
        (SubscriptionKey(p, s) in subscribingApps <==> SubscriptionKey(p, s) in old(subscribingApps))
      ensures subscribingApps == old(subscribingApps) - {SubscriptionKey(app.publicKey, service)}
      ensures UniqueKeys(old(apps)) ==> UniqueKeys(apps)
    {
      match payment {
        case Paid(status) =>
          if UniqueKeys(apps) {
            MarkActiveKeepsKeysUnique(apps, app.publicKey, service, FreshDetails(status));
          }
          apps := MarkActive(apps, app.publicKey, service, FreshDetails(status));
          failure := None;
        case PaymentFailed(error) =>
          failure := Some(ClassifyError(error));
      }
      ReleaseSubscriptionKeyOnly(subscribingApps, app.publicKey, service);
      subscribingApps := subscribingApps - {SubscriptionKey(app.publicKey, service)};
    }

    /** The whole subscribe handler with nothing interleaved at its `await`. */
    method SubscribeToServiceForApp(wallet: Wallet, app: Identity, service: Service, payment: Payment)
      returns (outcome: ActionOutcome)
      modifies this`apps, this`subscribingApps
      ensures !wallet.isConnected ==>
        outcome == NotConnected && apps == old(apps) && subscribingApps == old(subscribingApps)
      ensures wallet.isConnected && payment.Paid? ==>
        && outcome == Succeeded
        && apps == MarkActive(old(apps), app.publicKey, service, FreshDetails(payment.status))
      ensures wallet.isConnected && payment.PaymentFailed? ==>
        outcome == Failed(ClassifyError(payment.error)) && apps == old(apps)
      ensures wallet.isConnected ==>
        subscribingApps == old(subscribingApps) - {SubscriptionKey(app.publicKey, service)}
    {
      var started := BeginSubscribe(wallet, app, service);
      if !started {
        return NotConnected;
      }
      var failure := FinishSubscribe(app, service, payment);
      outcome := if failure.Some? then Failed(failure.value) else Succeeded;
    }

    /**
     * `renewSubscriptionForApp` up to its first `await`. Like subscribe, it
     * checks neither a busy key nor the renewal window: both are left to the
     * button's rendering and `disabled` state.
     */
    method BeginRenew(wallet: Wallet, app: Identity, service: Service, ghost now: Timestamp) returns (started: bool)
      modifies this`renewingApps
      ensures started == wallet.isConnected
      ensures renewingApps ==
        if started then old(renewingApps) + {RenewalKey(app.publicKey, service)} else old(renewingApps)
      ensures started ==> forall other: Identity :: other.publicKey == app.publicKey ==> !RenewEnabled(other, service, renewingApps, now)
    {
      started := wallet.isConnected;
      if started {
        renewingApps := renewingApps + {RenewalKey(app.publicKey, service)};
      }
    }

    /** The rest of the renewal; the same merge as a subscribe, under the renewal key. */
    method FinishRenew(app: Identity, service: Service, payment: Payment) returns (failure: Option<ErrorClass>)
      modifies this`apps, this`renewingApps
      ensures failure == if payment.PaymentFailed? then Some(ClassifyError(payment.error)) else None
      ensures apps ==
        if payment.Paid? then MarkActive(old(apps), app.publicKey, service, FreshDetails(payment.status)) else old(apps)
      ensures RenewalKey(app.publicKey, service) !in renewingApps
      ensures forall p, s :: p != app.publicKey || s != service ==>
        (RenewalKey(p, s) in renewingApps <==> RenewalKey(p, s) in old(renewingApps))
      ensures renewingApps == old(renewingApps) - {RenewalKey(app.publicKey, service)}
      ensures UniqueKeys(old(apps)) ==> UniqueKeys(apps)
    {
      match payment {
        case Paid(status) =>
          if UniqueKeys(apps) {
            MarkActiveKeepsKeysUnique(apps, app.publicKey, service, FreshDetails(status));
          }
          apps := MarkActive(apps, app.publicKey, service, FreshDetails(status));
          failure := None;
        case PaymentFailed(error) =>
          failure := Some(ClassifyError(error));
      }
      ReleaseRenewalKeyOnly(renewingApps, app.publicKey, service);
      renewingApps := renewingApps - {RenewalKey(app.publicKey, service)};
    }

    /** The whole renewal handler with nothing interleaved at its `await`. */
    method RenewSubscriptionForApp(wallet: Wallet, app: Identity, service: Service, payment: Payment)
      returns (outcome: ActionOutcome)
      modifies this`apps, this`renewingApps
      ensures !wallet.isConnected ==>
        outcome == NotConnected && apps == old(apps) && renewingApps == old(renewingApps)
      ensures wallet.isConnected && payment.Paid? ==>
        && outcome == Succeeded
        && apps == MarkActive(old(apps), app.publicKey, service, FreshDetails(payment.status))
      ensures wallet.isConnected && payment.PaymentFailed? ==>
        outcome == Failed(ClassifyError(payment.error)) && apps == old(apps)
      ensures wallet.isConnected ==>
        renewingApps == old(renewingApps) - {RenewalKey(app.publicKey, service)}
    {
      var started := BeginRenew(wallet, app, service, 0);
      if !started {
        return NotConnected;
      }
      var failure := FinishRenew(app, service, payment);
      outcome := if failure.Some? then Failed(failure.value) else Succeeded;
    }
  }

  /**
   * A pass and a subscribe on the same app, interleaved: the pass selects the
   * app for its unknown nilAI record, the nilDB subscribe button is offered
   * because nilDB is inactive, the subscribe completes with fresh details, then the pass merges an
   * answer read before the payment. The subscribe's result is lost, because
   * the merge does not consult the in-flight keys.
   */
  method PassOverwritesConcurrentSubscribe(wallet: Wallet, app: Identity, expiresAt: Timestamp, renewableAt: Timestamp)
    returns (page: ApiKeysPage)
    requires wallet.isConnected
    requires app.subscriptions.nildb.status == Inactive && app.subscriptions.nilai.status == Unknown
    ensures page.apps == [app.(subscriptions := Subscriptions(Subscription(Inactive, None), Subscription(Inactive, None)))]
    ensures page.subscribingApps == {} && !page.loadingDetails
  {
    page := new ApiKeysPage(map[], map[]);
    page.apps := [app];
    var candidates := page.BeginLoadAllSubscriptionDetails(wallet, app.network);
    assert NeedsDetails(app, app.network);
    assert candidates == [app] by {
      assert app in AppsNeedingDetails([app], app.network);
    }
    assert SubscribeEnabled(page.apps[0], NilDB, page.subscribingApps);
    var started := page.BeginSubscribe(wallet, app, NilDB);
    var current := StatusResponse(true, Some(OracleDetails(expiresAt, renewableAt)));
    var failure := page.FinishSubscribe(app, NilDB, Paid(Some(current)));
    assert page.apps[0].subscriptions.nildb.status == Active;
    var stale := StatusResponse(false, None);
    var subscribed := page.apps;
    page.FinishLoadAllSubscriptionDetails(candidates, Some([Some(StatusPair(stale, stale))]));
    SucceededCheckApplied(subscribed, candidates, [Some(StatusPair(stale, stale))], 0, 0);
  }
}
