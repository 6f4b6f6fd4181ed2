/**
 * What the remote subscription authority answers to `subscriptionStatus`, and
 * how the page turns one answer into a subscription record.
 */
module Oracle {
  import opened Wrappers
  import opened Identities

  /** `details` of a status response; `epochMilliseconds` of each instant. */
  datatype OracleDetails = OracleDetails(expiresAt: Timestamp, renewableAt: Timestamp)

  /** The response of `subscriptionStatus(publicKey, service)`. */
  datatype StatusResponse = StatusResponse(subscribed: bool, details: Option<OracleDetails>)

  /** Both answers of one identity's `Promise.all` of status queries. */
  datatype StatusPair = StatusPair(nildb: StatusResponse, nilai: StatusResponse)

  /** Details are kept only from a response that is subscribed and carries them. */
  function DetailsFromStatus(response: StatusResponse): (details: Option<Details>)
    ensures details.Some? <==> response.subscribed && response.details.Some?
    ensures details.Some? ==>
      && details.value.expiresAt == Some(response.details.value.expiresAt)
      && details.value.renewableAt == Some(response.details.value.renewableAt)
  {
    if response.subscribed && response.details.Some? then
      Some(Details(Some(response.details.value.expiresAt), Some(response.details.value.renewableAt)))
    else
      None
  }

  /**
   * The record the reconciliation pass builds from one response: active
   * exactly when subscribed, and never carrying details unless active.
   */
  function SubscriptionFromStatus(response: StatusResponse): (sub: Subscription)
    ensures sub.status == Active <==> response.subscribed
    ensures sub.status == Inactive <==> !response.subscribed
    ensures sub.details.Some? ==> sub.status == Active
    ensures sub.details == DetailsFromStatus(response)
  {
    Subscription(if response.subscribed then Active else Inactive, DetailsFromStatus(response))
  }
}
