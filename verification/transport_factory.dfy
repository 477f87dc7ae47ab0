/**
 ElasticEmailTransportFactory::create: the DSN scheme selects the HTTP API
 transport or the SMTP transport, and the API host falls back to Elastic
 Email's own when the DSN names the host "default". The transports themselves
 are opaque here; a `Transport` value records which one is built and with what.
 */
module TransportFactory {
  import opened Wrappers

  /** The DSN parts create() reads; `user` and `password` are what getUser/getPassword return. */
  datatype Dsn = Dsn(scheme: string, host: string, user: string, password: string)

  /** The transport built: the API transport with its key and host, or the SMTP transport with its credentials. */
  datatype Transport =
    | ApiTransport(apiKey: string, host: string)
    | SmtpTransport(username: string, password: string)

  /** UnsupportedSchemeException: the DSN, the provider name and the schemes that would have worked. */
  datatype UnsupportedScheme = UnsupportedScheme(dsn: Dsn, provider: string, supported: seq<string>)

  const DefaultApiHost := "api.elasticemail.com"

  /** getSupportedSchemes. */
  const SupportedSchemes: seq<string> := ["elasticemail", "elasticemail+api", "elasticemail+smtp"]

  predicate IsApiScheme(scheme: string)
  {
    scheme == "elasticemail+api" || scheme == "elasticemail"
  }

  /** The API host: Elastic Email's own for "default", otherwise the DSN host unchanged. */
  function ApiHost(host: string): (h: string)
    ensures host != "default" ==> h == host
  {
    if host == "default" then DefaultApiHost else host
  }

  /** create: the three supported schemes build a transport, every other scheme is refused. */
  function Create(dsn: Dsn): (r: Result<Transport, UnsupportedScheme>)
    ensures r.Success? <==> dsn.scheme in SupportedSchemes
    ensures r.Failure? ==> r.error == UnsupportedScheme(dsn, "elasticemail", SupportedSchemes)
    ensures r.Success? && r.value.ApiTransport? <==> IsApiScheme(dsn.scheme)
  {
    var host := ApiHost(dsn.host);
    if IsApiScheme(dsn.scheme) then
      Success(ApiTransport(dsn.user, host))
    else if dsn.scheme == "elasticemail+smtp" then
      Success(SmtpTransport(dsn.user, dsn.password))
    else
      Failure(UnsupportedScheme(dsn, "elasticemail", SupportedSchemes))
  }

  /** The host "default" is replaced by Elastic Email's API host, and only that host is replaced. */
  lemma ApiHostDefaulting(host: string)
    ensures ApiHost(host) == DefaultApiHost <==> host == "default" || host == DefaultApiHost
    ensures ApiHost(host) != host <==> host == "default"
  {
  }

  /** Both API schemes build the API transport with the DSN user as key and the defaulted host. */
  lemma ApiSchemesBuildApiTransport(dsn: Dsn)
    requires dsn.scheme == "elasticemail" || dsn.scheme == "elasticemail+api"
    ensures Create(dsn) == Success(ApiTransport(dsn.user, ApiHost(dsn.host)))
    ensures dsn.host == "default" ==> Create(dsn).value.host == "api.elasticemail.com"
  {
  }

  /** The SMTP scheme builds the SMTP transport from the DSN credentials and ignores the DSN host. */
  lemma SmtpSchemeIgnoresHost(dsn: Dsn, otherHost: string)
    requires dsn.scheme == "elasticemail+smtp"
    ensures Create(dsn) == Success(SmtpTransport(dsn.user, dsn.password))
    ensures Create(dsn) == Create(dsn.(host := otherHost))
  {
  }

  /** Any other scheme, however close, is refused with the list of supported schemes. */
  lemma OtherSchemesRefused()
    ensures Create(Dsn("elasticemail+https", "default", "key", "")).Failure?
    ensures Create(Dsn("ElasticEmail", "default", "key", "")).Failure?
    ensures Create(Dsn("", "default", "key", "")).error.supported == SupportedSchemes
  {
  }
}
