/**
 * The HTTP Basic Authentication gate in front of the metrics endpoint
 * (section 2 of RFC 7617). Header parsing is library code: the handler sees
 * only whether credentials were present and, if so, the user-id and password.
 */
module Auth {
  import opened Config

  /** What the request's Authorization header yields after Basic decoding. */
  datatype Credentials =
    | Absent                                // no header, another scheme, or undecodable
    | Present(user: string, pass: string)

  /** What the gate does with a request. */
  datatype Decision =
    | Forward                               // the wrapped handler serves the request, once
    | Reject(status: int, challenge: string, message: string)

  const StatusUnauthorized: int := 401
  const Challenge: string := "Basic realm=\"Restricted\""
  const UnauthorizedText: string := "Unauthorized"

  /**
   * Forwards exactly when credentials are present and both the user-id and the
   * password equal the configured ones; every other request is answered with
   * 401, a Basic challenge and the text "Unauthorized", and never reaches the
   * wrapped handler.
   */
  function BasicAuth(cfg: Config, creds: Credentials): (d: Decision)
    ensures d.Forward? <==>
      creds.Present? && creds.user == cfg.basicAuthUsername && creds.pass == cfg.basicAuthPassword
    ensures d.Forward? <==> creds == Present(cfg.basicAuthUsername, cfg.basicAuthPassword)
    ensures d.Reject? ==>
      d.status == StatusUnauthorized && d.challenge == Challenge &&
      d.message == UnauthorizedText
  {
    if !creds.Present? || creds.user != cfg.basicAuthUsername || creds.pass != cfg.basicAuthPassword then
      Reject(StatusUnauthorized, Challenge, UnauthorizedText)
    else
      Forward
  }

  /** Matching only one half of the pair is not enough. */
  lemma HalfMatchRejected(cfg: Config, user: string, pass: string)
    requires (user == cfg.basicAuthUsername) != (pass == cfg.basicAuthPassword)
    ensures BasicAuth(cfg, Present(user, pass)) == Reject(StatusUnauthorized, Challenge, UnauthorizedText)
  {
  }
}
