/**
 * Loading the stored app list: legacy records are brought to the current
 * `AppIdentity` shape (page.tsx, the load effect). Also the shape
 * `JSON.stringify` gives a current identity when the list is saved, so that
 * saving and loading can be related.
 *
 * Date strings are not modelled: a raw timestamp is already the number of
 * milliseconds `new Date(...)` would give, and `None` stands for a missing or
 * falsy value.
 */
module Migration {
  import opened Wrappers
  import opened Text
  import opened Identities

  datatype RawDetails = RawDetails(expiresAt: Option<Timestamp>, renewableAt: Option<Timestamp>)

  /** A stored subscription entry, as parsed JSON. */
  datatype RawSubscription =
    | StatusString(token: string)                                     // legacy form: a bare status
    | StatusObject(status: Option<string>, details: Option<RawDetails>)
    | NotAnObject                                                     // missing, null, or a number or boolean

  /** A stored app record; any field may be missing in legacy data. */
  datatype RawApp = RawApp(
    name: Option<string>,
    publicKey: string,
    did: string,
    network: Option<string>,
    nildb: RawSubscription,
    nilai: RawSubscription)

  /** JavaScript truthiness of an optional string. */
  predicate Truthy(s: Option<string>)
  {
    s.Some? && s.value != ""
  }

  /** `migrateSubscription`. */
  function MigrateSubscription(raw: RawSubscription): (sub: Subscription)
    ensures raw.StatusString? ==> sub == Subscription(ParseStatus(raw.token), None)
    ensures raw.StatusObject? ==>
      sub.status == if Truthy(raw.status) then ParseStatus(raw.status.value) else Unknown
    ensures raw.StatusObject? ==> (sub.details.Some? <==> raw.details.Some?)
    ensures raw.StatusObject? && raw.details.Some? ==>
      && sub.details.value.expiresAt == raw.details.value.expiresAt
      && sub.details.value.renewableAt == raw.details.value.renewableAt
    ensures raw.NotAnObject? ==> sub == Subscription(Unknown, None)
  {
    match raw
    case StatusString(token) => Subscription(ParseStatus(token), None)
    case StatusObject(status, details) =>
      Subscription(
        if Truthy(status) then ParseStatus(status.value) else Unknown,
        match details
        case None => None
        case Some(d) => Some(Details(d.expiresAt, d.renewableAt)))
    case NotAnObject => Subscription(Unknown, None)
  }

  /** The name given to a nameless record, `App <position>`. */
  function PlaceholderName(position: nat): string
  {
    "App " + NatToString(position)
  }

  lemma PlaceholderNameInjective(p: nat, q: nat)
    requires PlaceholderName(p) == PlaceholderName(q)
    ensures p == q
  {
    assert PlaceholderName(p)[4..] == NatToString(p);
    assert PlaceholderName(q)[4..] == NatToString(q);
    NatToStringInjective(p, q);
  }

  /** One record of the load effect's `map`; `position` is `parsedApps.length - index`. */
  function MigrateApp(raw: RawApp, position: nat): (app: Identity)
    ensures app.name != ""
    ensures app.name == if Truthy(raw.name) then raw.name.value else PlaceholderName(position)
    ensures app.network == if Truthy(raw.network) then ParseNetwork(raw.network.value) else Testnet
    ensures app.publicKey == raw.publicKey && app.did == raw.did
    ensures app.subscriptions.Get(NilDB) == MigrateSubscription(raw.nildb)
    ensures app.subscriptions.Get(NilAI) == MigrateSubscription(raw.nilai)
  {
    Identity(
      if Truthy(raw.name) then raw.name.value else PlaceholderName(position),
      raw.publicKey,
      raw.did,
      if Truthy(raw.network) then ParseNetwork(raw.network.value) else Testnet,
      Subscriptions(MigrateSubscription(raw.nildb), MigrateSubscription(raw.nilai)))
  }

  /** The migrated list: same length and order, positions counted down from the length. */
  function MigrateApps(raws: seq<RawApp>): (apps: seq<Identity>)
    ensures |apps| == |raws|
    ensures forall i :: 0 <= i < |raws| ==> apps[i] == MigrateApp(raws[i], |raws| - i)
  {
    seq(|raws|, i requires 0 <= i < |raws| => MigrateApp(raws[i], |raws| - i))
  }

  /** Two nameless records of one batch receive different names. */
  lemma PlaceholderNamesDistinct(raws: seq<RawApp>, i: nat, j: nat)
    requires i < |raws| && j < |raws| && i != j
    requires !Truthy(raws[i].name) && !Truthy(raws[j].name)
    ensures MigrateApps(raws)[i].name != MigrateApps(raws)[j].name
  {
    var apps := MigrateApps(raws);
    if apps[i].name == apps[j].name {
      PlaceholderNameInjective(|raws| - i, |raws| - j);
    }
  }

  /** But a placeholder may repeat a stored name: names are not unique after loading. */
  lemma PlaceholderMayRepeatStoredName()
    ensures var raws := [RawApp(Some("App 1"), "k0", "d0", None, NotAnObject, NotAnObject),
                         RawApp(None, "k1", "d1", None, NotAnObject, NotAnObject)];
            MigrateApps(raws)[0].name == MigrateApps(raws)[1].name
  {
    assert NatToString(1) == "1";
  }

  /** The JSON form of a subscription: `details` is omitted when undefined. */
  function SerializeSubscription(sub: Subscription): RawSubscription
  {
    StatusObject(
      Some(StatusToken(sub.status)),
      match sub.details
      case None => None
      case Some(d) => Some(RawDetails(d.expiresAt, d.renewableAt)))
  }

  function SerializeApp(app: Identity): RawApp
  {
    RawApp(
      Some(app.name),
      app.publicKey,
      app.did,
      Some(NetworkToken(app.network)),
      SerializeSubscription(app.subscriptions.nildb),
      SerializeSubscription(app.subscriptions.nilai))
  }

  /** `JSON.stringify(apps)`, as what a later `JSON.parse` gives back. */
  function SerializeApps(apps: seq<Identity>): (raws: seq<RawApp>)
    ensures |raws| == |apps|
    ensures forall i :: 0 <= i < |apps| ==> raws[i] == SerializeApp(apps[i])
  {
    seq(|apps|, i requires 0 <= i < |apps| => SerializeApp(apps[i]))
  }

  /** A token survives a save and a load when it is truthy and names what it parses to. */
  predicate CanonicalStatus(status: Status)
  {
    StatusToken(status) != "" && ParseStatus(StatusToken(status)) == status
  }

  /** An identity a save followed by a load reproduces exactly. */
  predicate WellFormed(app: Identity)
  {
    && app.name != ""
    && NetworkToken(app.network) != ""
    && ParseNetwork(NetworkToken(app.network)) == app.network
    && CanonicalStatus(app.subscriptions.nildb.status)
    && CanonicalStatus(app.subscriptions.nilai.status)
  }

  lemma LoadAfterSaveApp(app: Identity, position: nat)
    requires WellFormed(app)
    ensures MigrateApp(SerializeApp(app), position) == app
  {
    var back := MigrateApp(SerializeApp(app), position);
    assert back.subscriptions.Get(NilDB) == app.subscriptions.Get(NilDB);
    assert back.subscriptions.Get(NilAI) == app.subscriptions.Get(NilAI);
  }

  /** Loading what was saved gives back the saved list. */
  lemma {:induction false} LoadAfterSave(apps: seq<Identity>)
    requires forall i :: 0 <= i < |apps| ==> WellFormed(apps[i])
    ensures MigrateApps(SerializeApps(apps)) == apps
  {
    var back := MigrateApps(SerializeApps(apps));
    forall i | 0 <= i < |apps|
      ensures back[i] == apps[i]
    {
      LoadAfterSaveApp(apps[i], |apps| - i);
    }
  }

  /** Migrating is idempotent unless a legacy entry is the empty status string. */
  lemma {:induction false} MigrationIdempotent(raws: seq<RawApp>)
    requires forall i :: 0 <= i < |raws| ==> raws[i].nildb != StatusString("") && raws[i].nilai != StatusString("")
    ensures MigrateApps(SerializeApps(MigrateApps(raws))) == MigrateApps(raws)
  {
    var apps := MigrateApps(raws);
    forall i | 0 <= i < |apps|
      ensures WellFormed(apps[i])
    {
      var r := raws[i];
      assert Truthy(r.network) ==> NetworkToken(apps[i].network) == r.network.value;
    }
    LoadAfterSave(apps);
  }

  /** The empty status string migrates to an unrecognised status that the next load turns into `unknown`. */
  lemma MigrationNotIdempotentOnEmptyStatus()
    ensures var raws := [RawApp(Some("a"), "k", "d", Some("testnet"), StatusString(""), NotAnObject)];
            MigrateApps(raws)[0].subscriptions.nildb.status == Unrecognised("")
            && MigrateApps(SerializeApps(MigrateApps(raws)))[0].subscriptions.nildb.status == Unknown
  {
  }
}
