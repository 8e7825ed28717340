/**
 * The subscription handshake of `GET /webhook`: the messaging platform calls it with
 * `hub.mode`, `hub.verify_token` and `hub.challenge`, and the bot echoes the challenge
 * only when the mode is `subscribe` and the token is the configured one.
 */
module Webhook {
  import opened Options

  /** A parsed query parameter: absent (`undefined`), a string, or an array/object the query parser built. */
  datatype QueryValue = Missing | Text(s: string) | Structured

  datatype Query = Query(mode: QueryValue, verifyToken: QueryValue, challenge: QueryValue)

  /** What the handler sends back: the echoed challenge, or the body `sendStatus` writes. */
  datatype Body = Echo(value: QueryValue) | StatusText(text: string)

  datatype Reply = Reply(status: int, body: Body)

  const SubscribeMode := "subscribe"

  /**
   * JavaScript's `token === VERIFY_TOKEN`, where the configured token is a string or,
   * when the environment variable is unset, `undefined`.
   */
  predicate StrictEquals(v: QueryValue, configured: Option<string>)
  {
    match v
    case Missing => configured.None?
    case Text(s) => configured == Some(s)
    case Structured => false
  }

  /** The GET handler: 200 with the challenge on a matching subscription, 403 otherwise. */
  function VerifySubscription(q: Query, configured: Option<string>): (r: Reply)
    ensures r.status == 200 || r.status == 403
    ensures r.status == 200 <==> q.mode == Text(SubscribeMode) && StrictEquals(q.verifyToken, configured)
    ensures r.status == 200 ==> r.body == Echo(q.challenge)
    ensures r.status == 403 ==> r.body == StatusText("Forbidden")
  {
    if q.mode == Text(SubscribeMode) && StrictEquals(q.verifyToken, configured) then
      Reply(200, Echo(q.challenge))
    else
      Reply(403, StatusText("Forbidden"))
  }

  /** With a token configured, a request is accepted only if it carries exactly that token. */
  lemma AcceptedOnlyWithConfiguredToken(q: Query, token: string)
    requires VerifySubscription(q, Some(token)).status == 200
    ensures q.verifyToken == Text(token)
  {
  }

  /**
   * With no token configured, `undefined === undefined` holds, so a subscribe request
   * that omits `hub.verify_token` is accepted.
   */
  lemma UnconfiguredTokenAcceptsMissingParameter(challenge: QueryValue)
    ensures VerifySubscription(Query(Text(SubscribeMode), Missing, challenge), None) == Reply(200, Echo(challenge))
  {
  }

  /** An array or object in place of the token never matches, whatever is configured. */
  lemma StructuredTokenRejected(mode: QueryValue, challenge: QueryValue, configured: Option<string>)
    ensures VerifySubscription(Query(mode, Structured, challenge), configured).status == 403
  {
  }
}
