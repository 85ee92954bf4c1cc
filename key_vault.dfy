/** Azure Key Vault's certificate store as the job sees it: per certificate
    name, the list of its versions, newest first. */
module KeyVault {
  import opened Wrappers
  import opened Acme

  /** One version of a certificate. `expiresOn` is what the vault reports
      as the expiry; `tags` is the metadata given at import. */
  datatype CertificateVersion = CertificateVersion(
    content: Pfx, enabled: bool, tags: map<string, string>, expiresOn: Option<int>)

  /** Why an import was refused (the client throws on these). */
  datatype ImportError =
    | ImportCancelled   // the cancellation token was already cancelled
    | InvalidName       // the name is not a Key Vault object name
    | WrongPassword     // the password does not open the PFX

  predicate IsAsciiLetterOrDigit(c: char)
  {
    ('a' <= c <= 'z') || ('A' <= c <= 'Z') || ('0' <= c <= '9')
  }

  /** Key Vault object names: 1 to 127 characters, each an ASCII letter, a digit or '-'. */
  predicate IsObjectName(name: string)
  {
    1 <= |name| <= 127 && forall i :: 0 <= i < |name| ==> IsAsciiLetterOrDigit(name[i]) || name[i] == '-'
  }

  /** The versions listed under `name`, newest first (none for an unknown name). */
  function VersionsOf(certificates: map<string, seq<CertificateVersion>>, name: string): seq<CertificateVersion>
  {
    if name in certificates then certificates[name] else []
  }

  /** The version an import creates: the vault reads the expiry off the certificate itself. */
  function NewVersion(content: Pfx, enabled: bool, tags: map<string, string>): CertificateVersion
  {
    CertificateVersion(content, enabled, tags, Some(content.chain.notAfter))
  }

  /** The store after `ImportCertificateAsync`, or why it was refused. */
  function Import(
    certificates: map<string, seq<CertificateVersion>>, name: string, content: Pfx,
    enabled: bool, password: string, tags: map<string, string>, cancelled: bool)
    : Result<map<string, seq<CertificateVersion>>, ImportError>
  {
    if cancelled then Failure(ImportCancelled)
    else if !IsObjectName(name) then Failure(InvalidName)
    else if password != content.password then Failure(WrongPassword)
    else Success(certificates[name := [NewVersion(content, enabled, tags)] + VersionsOf(certificates, name)])
  }

  /** An import succeeds exactly when the token is not cancelled, the name
      is an object name and the password opens the PFX; it then puts the new
      version in front of that name's versions and changes no other name. */
  lemma ImportOutcome(
    certificates: map<string, seq<CertificateVersion>>, name: string, content: Pfx,
    enabled: bool, password: string, tags: map<string, string>, cancelled: bool)
    ensures var r := Import(certificates, name, content, enabled, password, tags, cancelled);
      && (r.Success? <==> !cancelled && IsObjectName(name) && password == content.password)
      && (r.Success? ==>
            && r.value.Keys == certificates.Keys + {name}
            && r.value[name] == [NewVersion(content, enabled, tags)] + VersionsOf(certificates, name)
            && forall n :: n in certificates && n != name ==> r.value[n] == certificates[n])
  {
  }

  /** The versions listed across the pages of a paged listing, in order. */
  function Concat(pages: seq<seq<CertificateVersion>>): seq<CertificateVersion>
  {
    if pages == [] then [] else pages[0] + Concat(pages[1..])
  }

  /** The vault's certificate client. */
  class CertificateClient {
    var certificates: map<string, seq<CertificateVersion>>

    constructor ()
      ensures certificates == map[]
    {
      certificates := map[];
    }

    /** `ImportCertificateAsync(options, token)`; `cancelled` is what the call
        saw when it observed the token. */
    method ImportCertificateAsync(
      name: string, content: Pfx, enabled: bool, password: string,
      tags: map<string, string>, cancelled: bool)
      returns (r: Result<CertificateVersion, ImportError>)
      modifies this
      ensures var outcome := Import(old(certificates), name, content, enabled, password, tags, cancelled);
        && (outcome.Success? ==> r == Success(NewVersion(content, enabled, tags)) && certificates == outcome.value)
        && (outcome.Failure? ==> r == Failure(outcome.error) && certificates == old(certificates))
    {
      var outcome := Import(certificates, name, content, enabled, password, tags, cancelled);
      if outcome.Failure? {
        return Failure(outcome.error);
      }
      certificates := outcome.value;
      r := Success(NewVersion(content, enabled, tags));
    }
  }
}
