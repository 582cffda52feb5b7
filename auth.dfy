/**
 * The pure part of constructing a Pacemaker client: choosing the client's
 * name and mapping the configured authentication scheme (plus, for DIGEST,
 * the digest payload made from the login configuration) to an
 * authentication method or a fatal configuration error.
 */
module PacemakerAuth {
  import opened Wrappers

  /** The authentication methods the client's codec knows. */
  datatype AuthMethod = NONE | DIGEST | KERBEROS

  /** Why constructing a client fails. */
  datatype ConfigError =
    | NoAuthScheme    // the auth-method entry is absent: the switch dereferences null
    | NoDigestSecret  // DIGEST is configured but no digest payload could be made

  /** What the constructor settles on: the method handed to the codec and the secret it keeps. */
  datatype AuthSetup = AuthSetup(authMethod: AuthMethod, secret: Option<string>)

  const DefaultClientName: string := "pacemaker-client"

  /** The client's name: the topology name when configured, otherwise a fixed default. */
  function ClientName(topologyName: Option<string>): (name: string)
    ensures topologyName.Some? ==> name == topologyName.value
    ensures topologyName.None? ==> name == DefaultClientName && |name| > 0
  {
    match topologyName
    case Some(n) => n
    case None => DefaultClientName
  }

  /**
   * The constructor's switch on the auth-method string. `digestSecret` is the
   * digest payload the login configuration yields; it is consulted only for
   * DIGEST. Every scheme other than DIGEST and KERBEROS falls back to NONE.
   */
  function ResolveAuth(scheme: Option<string>, digestSecret: Option<string>): (r: Result<AuthSetup, ConfigError>)
    ensures r.Failure? <==> scheme.None? || (scheme == Some("DIGEST") && digestSecret.None?)
    ensures r.Failure? ==> (r.error == NoAuthScheme <==> scheme.None?)
    ensures r.Success? ==> (r.value.authMethod == DIGEST <==> scheme == Some("DIGEST"))
    ensures r.Success? ==> (r.value.authMethod == KERBEROS <==> scheme == Some("KERBEROS"))
    ensures r.Success? ==> (r.value.secret.Some? <==> r.value.authMethod == DIGEST)
    ensures r.Success? && r.value.authMethod == DIGEST ==> r.value.secret == digestSecret
  {
    match scheme
    case None => Failure(NoAuthScheme)
    case Some(s) =>
      if s == "DIGEST" then
        if digestSecret.None? then Failure(NoDigestSecret) else Success(AuthSetup(DIGEST, digestSecret))
      else if s == "KERBEROS" then
        Success(AuthSetup(KERBEROS, None))
      else
        Success(AuthSetup(NONE, None))
  }
}
