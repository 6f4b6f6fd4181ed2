/**
 * The pure parts of the page's handlers: input validation for creating and
 * attaching an app, the new records they prepend, the per-service merge of a
 * successful subscribe or renew, stop-tracking's filter, the in-flight keys,
 * and the classification of payment errors.
 */
module Mutations {
  import opened Wrappers
  import opened Text
  import opened Identities
  import opened Oracle
  import opened Seqs
  import opened Reconciliation
  import opened Migration

  // ---------------------------------------------------------------- errors

  /** What a handler's `catch` receives: an `Error` with its message, or any other thrown value. */
  datatype ErrorValue = ErrorObject(message: string) | NonErrorValue

  /** The three messages the page shows for a failed payment. */
  datatype ErrorClass = UserRejected | InsufficientFunds | OtherFailure(message: string)

  function ErrorMessage(error: ErrorValue): (message: string)
    ensures error.ErrorObject? ==> message == error.message
    ensures error.NonErrorValue? ==> message == "Unknown error occurred"
  {
    match error
    case ErrorObject(message) => message
    case NonErrorValue => "Unknown error occurred"
  }

  /**
   * The `includes` tests, in their fixed order: a rejection or denial wins
   * over insufficient funds, and anything else keeps its message.
   */
  function ClassifyMessage(message: string): (c: ErrorClass)
    ensures c == UserRejected <==>
      (exists i :: OccursAt(message, "rejected", i)) || (exists i :: OccursAt(message, "denied", i))
    ensures c == InsufficientFunds <==>
      && !(exists i :: OccursAt(message, "rejected", i))
      && !(exists i :: OccursAt(message, "denied", i))
      && (exists i :: OccursAt(message, "insufficient", i))
    ensures c.OtherFailure? ==> c.message == message
  {
    IncludesIff(message, "rejected");
    IncludesIff(message, "denied");
    IncludesIff(message, "insufficient");
    if Includes(message, "rejected") || Includes(message, "denied") then UserRejected
    else if Includes(message, "insufficient") then InsufficientFunds
    else OtherFailure(message)
  }

  /** The `catch` of a create, subscribe or renew: a thrown non-`Error` is reported with the fallback message. */
  function ClassifyError(error: ErrorValue): (c: ErrorClass)
    ensures error.ErrorObject? ==> c == ClassifyMessage(error.message)
    ensures error.NonErrorValue? ==> c == OtherFailure("Unknown error occurred")
  {
    var fallback := "Unknown error occurred";
    AbsentCharRulesOut(fallback, "rejected", 2);
    AbsentCharRulesOut(fallback, "denied", 3);
    AbsentCharRulesOut(fallback, "insufficient", 0);
    ClassifyMessage(ErrorMessage(error))
  }

  /** A message that mentions both a rejection and insufficient funds counts as a rejection. */
  lemma RejectionWinsOverInsufficientFunds(message: string, i: int, j: int)
    requires OccursAt(message, "rejected", i) && OccursAt(message, "insufficient", j)
    ensures ClassifyMessage(message) == UserRejected
  {
  }

  // ------------------------------------------------------------ validation

  datatype ValidationError =
    | WalletNotConnected
    | EmptyName
    | EmptyPublicKey
    | MalformedPublicKey
    | DuplicateName
    | DuplicatePublicKey

  /** `app.name && app.name.toLowerCase() === requested.trim().toLowerCase()`. */
  predicate SameNameIgnoringCase(existing: string, requested: string)
  {
    existing != "" && ToLower(existing) == ToLower(Trim(requested))
  }

  predicate NameTaken(apps: seq<Identity>, requested: string)
  {
    exists i :: 0 <= i < |apps| && SameNameIgnoringCase(apps[i].name, requested)
  }

  predicate KeyTaken(apps: seq<Identity>, requested: string)
  {
    exists i :: 0 <= i < |apps| && apps[i].publicKey == Trim(requested)
  }

  /** The checks `createNewApp` makes before anything else happens. */
  function ValidateNewApp(connected: bool, apps: seq<Identity>, appName: string): (error: Option<ValidationError>)
    ensures error.None? <==> connected && !IsBlank(appName) && !NameTaken(apps, appName)
    ensures error == Some(WalletNotConnected) <==> !connected
    ensures error == Some(EmptyName) <==> connected && IsBlank(appName)
    ensures error == Some(DuplicateName) <==> connected && !IsBlank(appName) && NameTaken(apps, appName)
  {
    if !connected then Some(WalletNotConnected)
    else if Trim(appName) == "" then Some(EmptyName)
    else if NameTaken(apps, appName) then Some(DuplicateName)
    else None
  }

  /** The checks `addExistingApp` makes, in its order; no wallet check. */
  function ValidateExistingApp(apps: seq<Identity>, appName: string, publicKey: string): (error: Option<ValidationError>)
    ensures error.None? <==>
      !IsBlank(appName) && IsPublicKeyHex(Trim(publicKey)) && !NameTaken(apps, appName) && !KeyTaken(apps, publicKey)
    ensures error == Some(EmptyName) <==> IsBlank(appName)
    ensures error == Some(EmptyPublicKey) <==> !IsBlank(appName) && IsBlank(publicKey)
    ensures error == Some(MalformedPublicKey) <==>
      !IsBlank(appName) && !IsBlank(publicKey) && !IsPublicKeyHex(Trim(publicKey))
    ensures error == Some(DuplicateName) <==>
      !IsBlank(appName) && IsPublicKeyHex(Trim(publicKey)) && NameTaken(apps, appName)
    ensures error == Some(DuplicatePublicKey) <==>
      !IsBlank(appName) && IsPublicKeyHex(Trim(publicKey)) && !NameTaken(apps, appName) && KeyTaken(apps, publicKey)
  {
    if Trim(appName) == "" then Some(EmptyName)
    else if Trim(publicKey) == "" then Some(EmptyPublicKey)
    else if !IsPublicKeyHex(Trim(publicKey)) then Some(MalformedPublicKey)
    else if NameTaken(apps, appName) then Some(DuplicateName)
    else if KeyTaken(apps, publicKey) then Some(DuplicatePublicKey)
    else None
  }

  /** A second app called "foo" is refused once "Foo" exists. */
  lemma NamesCompareIgnoringCase(app: Identity)
    requires app.name == "Foo"
    ensures ValidateNewApp(true, [app], "foo") == Some(DuplicateName)
  {
    TrimmedAlready("foo");
    assert ToLower("Foo") == ToLower("foo");
    assert SameNameIgnoringCase([app][0].name, "foo");
  }

  /** A key one character too short or too long is refused however the rest looks. */
  lemma WrongLengthKeyRefused(apps: seq<Identity>, appName: string, publicKey: string)
    requires |Trim(publicKey)| == 65 || |Trim(publicKey)| == 67
    ensures ValidateExistingApp(apps, appName, publicKey).Some?
  {
  }

  /** An already tracked key is refused, whatever name comes with it. */
  lemma TrackedKeyRefused(apps: seq<Identity>, appName: string, publicKey: string, i: nat)
    requires i < |apps| && apps[i].publicKey == Trim(publicKey)
    ensures ValidateExistingApp(apps, appName, publicKey).Some?
  {
  }

  // ------------------------------------------------------------ new records

  /** What `Keypair.generate()` yields, as hexadecimal strings and a DID. */
  datatype Keypair = Keypair(publicKey: string, privateKey: string, did: string)

  /** The one-time display of a created app; the private key lives only here. */
  datatype NewAppData = NewAppData(name: string, privateKey: string, publicKey: string, did: string, network: Network)

  /** The `nillion-main-app-<address>` record: no private key. */
  datatype StoredAppData = StoredAppData(name: string, publicKey: string, network: Network)

  /** The app `createNewApp` prepends: the paid service active, the other inactive. */
  function NewCreatedApp(name: string, keypair: Keypair, network: Network, service: Service, details: Option<Details>): (app: Identity)
    ensures app.name == name && app.publicKey == keypair.publicKey && app.did == keypair.did
    ensures app.network == network
    ensures app.subscriptions.Get(service) == Subscription(Active, details)
    ensures forall other :: other != service ==> app.subscriptions.Get(other) == Subscription(Inactive, None)
  {
    Identity(name, keypair.publicKey, keypair.did, network,
      Subscriptions(
        Subscription(if service == NilDB then Active else Inactive, if service == NilDB then details else None),
        Subscription(if service == NilAI then Active else Inactive, if service == NilAI then details else None)))
  }

  /** The app `addExistingApp` prepends: a placeholder DID and both services unknown. */
  function NewAttachedApp(name: string, publicKey: string, network: Network): (app: Identity)
    ensures app.name == name && app.publicKey == publicKey && app.network == network
    ensures app.did == "Unknown DID for " + name
    ensures forall service :: app.subscriptions.Get(service) == Subscription(Unknown, None)
  {
    Identity(name, publicKey, "Unknown DID for " + name, network,
      Subscriptions(Subscription(Unknown, None), Subscription(Unknown, None)))
  }

  /** An attached app is what the next reconciliation pass on its network looks up. */
  lemma AttachedAppAwaitsReconciliation(name: string, publicKey: string, network: Network)
    ensures NeedsDetails(NewAttachedApp(name, publicKey, network), network)
  {
  }

  /** New apps on a known network survive a save and a reload unchanged. */
  lemma NewAppsReloadUnchanged(name: string, keypair: Keypair, publicKey: string,
                               network: Network, service: Service, details: Option<Details>)
    requires name != "" && (network == Testnet || network == Mainnet)
    ensures WellFormed(NewCreatedApp(name, keypair, network, service, details))
    ensures WellFormed(NewAttachedApp(name, publicKey, network))
  {
    var created := NewCreatedApp(name, keypair, network, service, details);
    assert created.subscriptions.nildb == created.subscriptions.Get(NilDB);
    assert created.subscriptions.nilai == created.subscriptions.Get(NilAI);
  }

  /** Prepending an identity whose key is not listed keeps the keys unique. */
  lemma PrependKeepsKeysUnique(app: Identity, apps: seq<Identity>)
    requires UniqueKeys(apps)
    requires forall i :: 0 <= i < |apps| ==> apps[i].publicKey != app.publicKey
    ensures UniqueKeys([app] + apps)
  {
    var updated := [app] + apps;
    forall i, j | 0 <= i < j < |updated|
      ensures updated[i].publicKey != updated[j].publicKey
    {
      assert updated[j] == apps[j - 1];
      if i > 0 {
        assert updated[i] == apps[i - 1];
      }
    }
  }

  /** Attaching a key that passed validation keeps the keys of the list unique. */
  lemma AttachKeepsKeysUnique(apps: seq<Identity>, appName: string, publicKey: string, network: Network)
    requires UniqueKeys(apps) && ValidateExistingApp(apps, appName, publicKey) == None
    ensures UniqueKeys([NewAttachedApp(Trim(appName), Trim(publicKey), network)] + apps)
  {
    assert !KeyTaken(apps, publicKey);
    PrependKeepsKeysUnique(NewAttachedApp(Trim(appName), Trim(publicKey), network), apps);
  }

  /** Creating an app keeps the keys unique when the generated key is not already listed. */
  lemma CreateKeepsKeysUnique(apps: seq<Identity>, name: string, keypair: Keypair, network: Network,
                              service: Service, details: Option<Details>)
    requires UniqueKeys(apps)
    requires !ListsKey(apps, keypair.publicKey)
    ensures UniqueKeys([NewCreatedApp(name, keypair, network, service, details)] + apps)
  {
    PrependKeepsKeysUnique(NewCreatedApp(name, keypair, network, service, details), apps);
  }

  // ------------------------------------------------- subscribe and renew merges

  /** The details a best-effort status fetch supplies; `None` also when the fetch itself failed. */
  function FreshDetails(status: Option<StatusResponse>): (details: Option<Details>)
    ensures details.Some? <==> status.Some? && status.value.subscribed && status.value.details.Some?
    ensures details.Some? ==>
      && details.value.expiresAt == Some(status.value.details.value.expiresAt)
      && details.value.renewableAt == Some(status.value.details.value.renewableAt)
  {
    match status
    case None => None
    case Some(response) => DetailsFromStatus(response)
  }

  function MarkActiveApp(app: Identity, publicKey: string, service: Service, details: Option<Details>): Identity
  {
    if app.publicKey == publicKey
    then app.(subscriptions := app.subscriptions.With(service, Subscription(Active, details)))
    else app
  }

  /**
   * The `setApps(prev => prev.map(...))` of a successful subscribe or renew:
   * only the given service of the apps with the given key becomes active with
   * the new details; every other app, the other service and every other
   * field are kept.
   */
  function MarkActive(apps: seq<Identity>, publicKey: string, service: Service, details: Option<Details>): (updated: seq<Identity>)
    ensures |updated| == |apps|
    ensures forall i :: 0 <= i < |apps| && apps[i].publicKey != publicKey ==> updated[i] == apps[i]
    ensures forall i :: 0 <= i < |apps| && apps[i].publicKey == publicKey ==>
      && updated[i].subscriptions.Get(service) == Subscription(Active, details)
      && updated[i].(subscriptions := apps[i].subscriptions) == apps[i]
    ensures forall i, other :: 0 <= i < |apps| && other != service ==>
      updated[i].subscriptions.Get(other) == apps[i].subscriptions.Get(other)
  {
    seq(|apps|, i requires 0 <= i < |apps| => MarkActiveApp(apps[i], publicKey, service, details))
  }

  /** A second completion of the same subscribe or renew changes nothing more. */
  lemma {:induction false} MarkActiveIdempotent(apps: seq<Identity>, publicKey: string, service: Service, details: Option<Details>)
    ensures MarkActive(MarkActive(apps, publicKey, service, details), publicKey, service, details) ==
            MarkActive(apps, publicKey, service, details)
  {
    var once := MarkActive(apps, publicKey, service, details);
    var twice := MarkActive(once, publicKey, service, details);
    forall i | 0 <= i < |apps|
      ensures twice[i] == once[i]
    {
      if apps[i].publicKey == publicKey {
        var s := once[i].subscriptions;
        assert s.With(service, Subscription(Active, details)) == s by {
          match service
          case NilDB => assert s.nildb == s.Get(NilDB);
          case NilAI => assert s.nilai == s.Get(NilAI);
        }
      }
    }
  }

  /** A subscribe or renew merge never changes a key, so it keeps keys unique. */
  lemma MarkActiveKeepsKeysUnique(apps: seq<Identity>, publicKey: string, service: Service, details: Option<Details>)
    requires UniqueKeys(apps)
    ensures UniqueKeys(MarkActive(apps, publicKey, service, details))
  {
    var updated := MarkActive(apps, publicKey, service, details);
    forall i | 0 <= i < |apps|
      ensures updated[i].publicKey == apps[i].publicKey
    {
      if apps[i].publicKey == publicKey {
        assert updated[i].(subscriptions := apps[i].subscriptions) == apps[i];
      }
    }
  }

  // ---------------------------------------------------------- stop tracking

  function HasOtherKey(publicKey: string): Identity -> bool
  {
    (app: Identity) => app.publicKey != publicKey
  }

  /** `prev.filter(app => app.publicKey !== target.publicKey)`. */
  function WithoutApp(apps: seq<Identity>, publicKey: string): (kept: seq<Identity>)
    ensures forall app :: app in kept <==> app in apps && app.publicKey != publicKey
  {
    Filter(apps, HasOtherKey(publicKey))
  }

  /** Stop-tracking keeps the remaining apps in their order: it works piece by piece. */
  lemma WithoutAppKeepsOrder(front: seq<Identity>, back: seq<Identity>, publicKey: string)
    ensures WithoutApp(front + back, publicKey) == WithoutApp(front, publicKey) + WithoutApp(back, publicKey)
  {
    FilterAppend(front, back, HasOtherKey(publicKey));
  }

  /** Stop-tracking keeps the keys of the list unique. */
  lemma WithoutAppKeepsKeysUnique(apps: seq<Identity>, publicKey: string)
    requires UniqueKeys(apps)
    ensures UniqueKeys(WithoutApp(apps, publicKey))
  {
    FilterKeepsKeysUnique(apps, HasOtherKey(publicKey));
  }

  /** Stop-tracking an untracked key leaves the list as it is. */
  lemma WithoutUntrackedApp(apps: seq<Identity>, publicKey: string)
    requires forall i :: 0 <= i < |apps| ==> apps[i].publicKey != publicKey
    ensures WithoutApp(apps, publicKey) == apps
  {
    FilterKeepsAll(apps, HasOtherKey(publicKey));
  }

  // ---------------------------------------------------------- in-flight keys

  /** `${publicKey}-${service}`, the key of `subscribingApps`. */
  function SubscriptionKey(publicKey: string, service: Service): (key: string)
    ensures |key| == |publicKey| + 6
    ensures key[..|publicKey|] == publicKey && key[|publicKey|] == '-'
    ensures key[|publicKey| + 1..] == ServiceName(service)
  {
    publicKey + "-" + ServiceName(service)
  }

  /** `${publicKey}-${service}-renew`, the key of `renewingApps`. */
  function RenewalKey(publicKey: string, service: Service): (key: string)
    ensures |key| == |publicKey| + 12
    ensures key[..|publicKey|] == publicKey && key[|publicKey|] == '-'
    ensures key[|publicKey| + 1..|publicKey| + 6] == ServiceName(service)
    ensures key[|publicKey| + 6..] == "-renew"
  {
    publicKey + "-" + ServiceName(service) + "-renew"
  }

  lemma ServiceNameInjective(s1: Service, s2: Service)
    requires ServiceName(s1) == ServiceName(s2)
    ensures s1 == s2
  {
  }

  /** Each app and service has its own subscribe key: releasing one releases no other. */
  lemma SubscriptionKeyInjective(p1: string, s1: Service, p2: string, s2: Service)
    requires SubscriptionKey(p1, s1) == SubscriptionKey(p2, s2)
    ensures p1 == p2 && s1 == s2
  {
    var k := SubscriptionKey(p1, s1);
    assert |ServiceName(s1)| == 5 && |ServiceName(s2)| == 5;
    assert k[..|p1|] == p1;
    assert SubscriptionKey(p2, s2)[..|p2|] == p2;
    assert k[|p1| + 1..] == ServiceName(s1);
    assert SubscriptionKey(p2, s2)[|p2| + 1..] == ServiceName(s2);
    ServiceNameInjective(s1, s2);
  }

  /** Each app and service has its own renewal key. */
  lemma RenewalKeyInjective(p1: string, s1: Service, p2: string, s2: Service)
    requires RenewalKey(p1, s1) == RenewalKey(p2, s2)
    ensures p1 == p2 && s1 == s2
  {
    var k := RenewalKey(p1, s1);
    assert |ServiceName(s1)| == 5 && |ServiceName(s2)| == 5;
    assert k[..|p1|] == p1;
    assert RenewalKey(p2, s2)[..|p2|] == p2;
    assert k[|p1| + 1..|p1| + 6] == ServiceName(s1);
    assert RenewalKey(p2, s2)[|p2| + 1..|p2| + 6] == ServiceName(s2);
    ServiceNameInjective(s1, s2);
  }

  /** Removing one subscribe key from a set of in-flight keys leaves every other key as it was. */
  lemma ReleaseSubscriptionKeyOnly(keys: set<string>, p1: string, s1: Service)
    ensures forall p, s :: p != p1 || s != s1 ==>
      (SubscriptionKey(p, s) in keys - {SubscriptionKey(p1, s1)} <==> SubscriptionKey(p, s) in keys)
  {
    forall p, s | p != p1 || s != s1
      ensures SubscriptionKey(p, s) != SubscriptionKey(p1, s1)
    {
      if SubscriptionKey(p, s) == SubscriptionKey(p1, s1) {
        SubscriptionKeyInjective(p, s, p1, s1);
      }
    }
  }

  /** Removing one renewal key from a set of in-flight keys leaves every other key as it was. */
  lemma ReleaseRenewalKeyOnly(keys: set<string>, p1: string, s1: Service)
    ensures forall p, s :: p != p1 || s != s1 ==>
      (RenewalKey(p, s) in keys - {RenewalKey(p1, s1)} <==> RenewalKey(p, s) in keys)
  {
    forall p, s | p != p1 || s != s1
      ensures RenewalKey(p, s) != RenewalKey(p1, s1)
    {
      if RenewalKey(p, s) == RenewalKey(p1, s1) {
        RenewalKeyInjective(p, s, p1, s1);
      }
    }
  }

  /**
   * The only guard against a duplicate subscribe: the button is rendered for
   * an inactive service and disabled while its key is in flight.
   */
  predicate SubscribeEnabled(app: Identity, service: Service, subscribing: set<string>)
  {
    app.subscriptions.Get(service).status == Inactive && SubscriptionKey(app.publicKey, service) !in subscribing
  }

  /** The only guard on renewal: rendered inside the window, disabled while its key is in flight. */
  predicate RenewEnabled(app: Identity, service: Service, renewing: set<string>, now: Timestamp)
  {
    CanRenewSubscription(app.subscriptions.Get(service), now) && RenewalKey(app.publicKey, service) !in renewing
  }
}
