/**
 * The app identities an owner tracks, their per-service subscription records,
 * and the pure helpers over them: the renewal window (`canRenewSubscription`)
 * and the expiry category shown to the owner (`formatFriendlyDate`).
 */
module Identities {
  import opened Wrappers

  /** Milliseconds since the Unix epoch, what `Date.getTime()` returns. */
  type Timestamp = int

  /** Milliseconds in a day, `1000 * 60 * 60 * 24`. */
  const DayMs: int := 86400000

  /**
   * A subscription status. The declared type allows three tokens, but stored
   * records are cast without a check, so any other token is carried verbatim.
   */
  datatype Status = Active | Inactive | Unknown | Unrecognised(token: string)

  function StatusToken(status: Status): string
  {
    match status
    case Active => "active"
    case Inactive => "inactive"
    case Unknown => "unknown"
    case Unrecognised(token) => token
  }

  /** The status a stored token denotes; it prints back as the same token. */
  function ParseStatus(token: string): (status: Status)
    ensures StatusToken(status) == token
    ensures status.Unrecognised? <==> token !in {"active", "inactive", "unknown"}
  {
    if token == "active" then Active
    else if token == "inactive" then Inactive
    else if token == "unknown" then Unknown
    else Unrecognised(token)
  }

  /** The network an identity was created or attached on; stored tokens are kept verbatim. */
  datatype Network = Testnet | Mainnet | UnrecognisedNetwork(token: string)

  function NetworkToken(network: Network): string
  {
    match network
    case Testnet => "testnet"
    case Mainnet => "mainnet"
    case UnrecognisedNetwork(token) => token
  }

  function ParseNetwork(token: string): (network: Network)
    ensures NetworkToken(network) == token
    ensures network.UnrecognisedNetwork? <==> token !in {"testnet", "mainnet"}
  {
    if token == "testnet" then Testnet
    else if token == "mainnet" then Mainnet
    else UnrecognisedNetwork(token)
  }

  datatype Service = NilDB | NilAI

  function ServiceName(service: Service): string
  {
    match service
    case NilDB => "nildb"
    case NilAI => "nilai"
  }

  /** `SubscriptionDetails`: both timestamps are optional in stored records. */
  datatype Details = Details(expiresAt: Option<Timestamp>, renewableAt: Option<Timestamp>)

  /** `AppSubscription`. */
  datatype Subscription = Subscription(status: Status, details: Option<Details>)

  /** The `subscriptions` record: one entry for each service, always both. */
  datatype Subscriptions = Subscriptions(nildb: Subscription, nilai: Subscription)
  {
    function Get(service: Service): Subscription
    {
      match service
      case NilDB => nildb
      case NilAI => nilai
    }

    /** `{...subscriptions, [service]: sub}`: one entry replaced, the other kept. */
    function With(service: Service, sub: Subscription): (r: Subscriptions)
      ensures r.Get(service) == sub
      ensures forall other :: other != service ==> r.Get(other) == Get(other)
    {
      match service
      case NilDB => this.(nildb := sub)
      case NilAI => this.(nilai := sub)
    }
  }

  /** `AppIdentity`; `publicKey` identifies it within the owner's list. */
  datatype Identity = Identity(
    name: string,
    publicKey: string,
    did: string,
    network: Network,
    subscriptions: Subscriptions)

  /** What the page reads of the Keplr wallet; a missing wallet is `Wallet(false, None)`. */
  datatype Wallet = Wallet(isConnected: bool, address: Option<string>)

  /**
   * `canRenewSubscription` with the clock passed in as `now`: an active
   * subscription whose renewal date is known and has been reached.
   */
  predicate CanRenewSubscription(sub: Subscription, now: Timestamp)
  {
    && sub.status == Active
    && sub.details.Some?
    && sub.details.value.renewableAt.Some?
    && now >= sub.details.value.renewableAt.value
  }

  /** Once the window opens it stays open while nothing else changes. */
  lemma RenewalWindowStaysOpen(sub: Subscription, now: Timestamp, later: Timestamp)
    requires CanRenewSubscription(sub, now) && now <= later
    ensures CanRenewSubscription(sub, later)
  {
  }

  /** The window opens exactly at `renewableAt`, and never for an inactive or unknown subscription. */
  lemma RenewalWindowBoundary(expiresAt: Timestamp, renewableAt: Timestamp)
    ensures CanRenewSubscription(Subscription(Active, Some(Details(Some(expiresAt), Some(renewableAt)))), renewableAt)
    ensures !CanRenewSubscription(Subscription(Active, Some(Details(Some(expiresAt), Some(renewableAt)))), renewableAt - 1)
    ensures !CanRenewSubscription(Subscription(Inactive, Some(Details(Some(expiresAt), Some(renewableAt)))), renewableAt)
    ensures !CanRenewSubscription(Subscription(Unknown, Some(Details(Some(expiresAt), Some(renewableAt)))), renewableAt)
    ensures !CanRenewSubscription(Subscription(Active, None), renewableAt)
  {
  }

  /** `Math.ceil(diffMs / 86400000)`: the number of started days in `diffMs`. */
  function DaysUntil(diffMs: int): (days: int)
    ensures (days - 1) * DayMs < diffMs <= days * DayMs
  {
    -((-diffMs) / DayMs)
  }

  /** The message kinds `formatFriendlyDate` chooses between. */
  datatype Expiry =
    | ExpiredDaysAgo(days: nat)
    | ExpiresToday
    | ExpiresTomorrow
    | ExpiresInDays(days: nat)
    | ExpiresInOneMonth
    | ExpiresInMonths(months: nat)
    | ExpiresInAboutMonths(months: nat)

  /**
   * `formatFriendlyDate(expiresAt)` at time `now`, as the category of the
   * message rather than its wording. Each category is pinned to the window of
   * milliseconds-until-expiry it covers.
   */
  function FriendlyExpiry(expiresAt: Timestamp, now: Timestamp): (e: Expiry)
    ensures e == ExpiresToday <==> now - DayMs < expiresAt <= now
    ensures e == ExpiresTomorrow <==> now < expiresAt <= now + DayMs
    ensures e.ExpiredDaysAgo? ==>
      e.days >= 1 && now - (e.days + 1) * DayMs < expiresAt <= now - e.days * DayMs
    ensures e.ExpiresInDays? ==>
      2 <= e.days < 30 && now + (e.days - 1) * DayMs < expiresAt <= now + e.days * DayMs
    ensures e == ExpiresInOneMonth <==> now + 29 * DayMs < expiresAt <= now + 30 * DayMs
    ensures e.ExpiresInMonths? ==>
      e.months >= 2 && now + (30 * e.months - 1) * DayMs < expiresAt <= now + 30 * e.months * DayMs
    ensures e.ExpiresInAboutMonths? ==>
      e.months >= 1 && now + 30 * e.months * DayMs < expiresAt <= now + (30 * e.months + 29) * DayMs
  {
    var days := DaysUntil(expiresAt - now);
    if days < 0 then ExpiredDaysAgo(-days)
    else if days == 0 then ExpiresToday
    else if days == 1 then ExpiresTomorrow
    else if days < 30 then ExpiresInDays(days)
    else
      var months := days / 30;
      var remainingDays := days % 30;
      if months == 1 && remainingDays == 0 then ExpiresInOneMonth
      else if remainingDays == 0 then ExpiresInMonths(months)
      else ExpiresInAboutMonths(months)
  }
}
