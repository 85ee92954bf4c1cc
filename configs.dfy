/** The job's settings, in the flat shape the certificate manager reads:
    one Cloudflare zone, one Let's Encrypt contact and one list of domains. */
module Configs {

  /** Subject fields for the certificate signing request. */
  datatype CertInfoConfig = CertInfoConfig(
    countryName: string, state: string, locality: string,
    organization: string, organizationUnit: string)

  /** `CertManagerConfig`. The `[Required]` annotations are never enforced,
      so every field may be empty. */
  datatype CertManagerConfig = CertManagerConfig(
    productionEnabled: bool,
    cfEmail: string,
    cfToken: string,
    zoneId: string,
    letsEncryptEmail: string,
    domains: seq<string>,
    certInfo: CertInfoConfig)
}
