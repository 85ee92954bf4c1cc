/** The values the job exchanges with the ACME library (Certes) and the
    cancellation token that threads through every awaited call.

    The library's wire protocol and cryptography are not modelled: an order,
    a challenge validation or a download is an outcome taken from a script
    supplied by the caller, and keys, certificates and PFX archives are
    opaque values. */
module Acme {
  import opened Wrappers

  /** Directory URLs of `WellKnownServers.LetsEncryptV2` and `LetsEncryptStagingV2`. */
  const LetsEncryptV2 := "https://acme-v02.api.letsencrypt.org/directory"
  const LetsEncryptStagingV2 := "https://acme-staging-v02.api.letsencrypt.org/directory"

  /** The ACME server the job talks to. */
  function DirectoryUri(useProduction: bool): string
  {
    if useProduction then LetsEncryptV2 else LetsEncryptStagingV2
  }

  /** An ACME context: the server plus the account key, identified by its PEM text. */
  datatype AcmeContext = AcmeContext(directory: string, accountKey: string)

  /** `ChallengeStatus` as the ACME library reports it. */
  datatype ChallengeStatus = Pending | Processing | Valid | Invalid

  /** A downloaded certificate chain; `notAfter` is the leaf's expiry instant. */
  datatype CertificateChain = CertificateChain(certificate: string, issuers: seq<string>, notAfter: int)

  /** The certificate signing request fields (`CsrInfo`); an unset field is `None`. */
  datatype CsrInfo = CsrInfo(
    countryName: string, state: string, locality: string,
    organization: string, organizationUnit: Option<string>, commonName: string)

  /** A PFX archive built from a chain and the certificate key, with its friendly name and password. */
  datatype Pfx = Pfx(chain: CertificateChain, friendlyName: string, password: string)

  /** The run's cancellation token. Time is counted in observations of the
      token: every `Task.Delay` given the token, every
      `IsCancellationRequested` test and every service call given the token
      observes it once. `RequestedAt(k)` means the k-th observation (counting
      from 0) and every later one see the request; a token, once cancelled,
      stays cancelled. */
  datatype Cancellation = NotRequested | RequestedAt(observation: nat)

  /** Whether the observation numbered `obs` sees the cancellation. */
  predicate IsRequested(token: Cancellation, obs: nat)
  {
    token.RequestedAt? && token.observation <= obs
  }
}
