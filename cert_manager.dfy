/** `CertManager`: one run of the job. It loads or registers the ACME
    account, then for each configured domain in turn it orders a
    certificate, publishes the DNS-01 proof as a TXT record, waits for the
    challenge, issues the certificate and imports it into Key Vault.

    The ACME side is scripted per domain (`DomainScript`); the DNS provider,
    the vault and the file store are the state the run changes. */
module CertManager {
  import opened Wrappers
  import opened Acme
  import opened Configs
  import opened Cloudflare
  import opened CfDnsHelper
  import opened KeyVault
  import opened Extensions
  import opened FileSystem
  import opened CSharpStrings
  import VaultHelper

  /** Why a run stopped: the exception that escaped the domain loop. */
  datatype RunError =
    | RegistrationFailed            // `NewAccount` threw
    | OrderFailed                   // `NewOrder`, `Authorizations` or `Dns` threw
    | DnsFailed(apiError: ApiError) // a Cloudflare call failed
    | ChallengeCancelled            // a delay of `TryChallenge` saw the token cancelled
    | ValidateFailed                // a `Validate` call of `TryChallenge` threw
    | FinalizeFailed                // `Finalize` threw
    | NullCertificateChain          // `TryDownload` gave up and `ToPfx` dereferenced null
    | DownloadCancelled             // a delay of `TryDownload` saw the token cancelled
    | ImportFailed(importError: ImportError)

  // =====================================================================
  // The account key

  const DataDirectory := "Data"

  function EnvironmentName(useProduction: bool): string
  {
    if useProduction then "prd" else "staging"
  }

  /** The file caching the account key: `Data/<prd|staging>-<email without '@' and '.'>.pem`. */
  function AccountKeyPath(email: string, useProduction: bool): string
  {
    DataDirectory + "/" + EnvironmentName(useProduction) + "-" + Replace(Replace(email, '@', ""), '.', "") + ".pem"
  }

  /** The characters '@' and '.' are dropped from the email, every other one is kept in order. */
  lemma AccountKeyPathShape(email: string, useProduction: bool)
    ensures AccountKeyPath(email, useProduction) ==
      "Data/" + EnvironmentName(useProduction) + "-" + Without(email, {'@', '.'}) + ".pem"
  {
    DeleteTwice(email, '@', '.');
  }

  lemma NoSlashInKeyFileName(email: string, useProduction: bool)
    requires '/' !in email
    ensures '/' !in EnvironmentName(useProduction) + "-" + Without(email, {'@', '.'}) + ".pem"
  {
    var stripped := Without(email, {'@', '.'});
    WithoutProperties(email, {'@', '.'});
    var env := EnvironmentName(useProduction) + "-";
    var name := env + stripped + ".pem";
    forall i | 0 <= i < |name| ensures name[i] != '/' {
      if i < |env| {
        assert name[i] == env[i];
      } else if i < |env| + |stripped| {
        assert name[i] == stripped[i - |env|];
        assert stripped[i - |env|] in stripped;
      } else {
        assert name[i] == ".pem"[i - |env| - |stripped|];
      }
    }
  }

  /** The key file sits in the `Data` directory, unless the email itself holds a '/'. */
  lemma AccountKeyDirectory(email: string, useProduction: bool)
    requires '/' !in email
    ensures DirectoryName(AccountKeyPath(email, useProduction)) == DataDirectory
  {
    var name := EnvironmentName(useProduction) + "-" + Without(email, {'@', '.'}) + ".pem";
    AccountKeyPathInData(email, useProduction);
    NoSlashInKeyFileName(email, useProduction);
    DirectoryOfFile(DataDirectory, name);
  }

  lemma AccountKeyPathInData(email: string, useProduction: bool)
    ensures AccountKeyPath(email, useProduction)
      == DataDirectory + "/" + (EnvironmentName(useProduction) + "-" + Without(email, {'@', '.'}) + ".pem")
  {
    AccountKeyPathShape(email, useProduction);
  }

  /** Two emails share an account key file exactly when they agree once
      '@' and '.' are dropped (`a.b@x.io` and `ab@x.io` do). */
  lemma AccountKeyFileShared(email1: string, email2: string, useProduction: bool)
    ensures AccountKeyPath(email1, useProduction) == AccountKeyPath(email2, useProduction)
      <==> Without(email1, {'@', '.'}) == Without(email2, {'@', '.'})
  {
    AccountKeyPathShape(email1, useProduction);
    AccountKeyPathShape(email2, useProduction);
    var prefix := "Data/" + EnvironmentName(useProduction) + "-";
    var s1, s2 := Without(email1, {'@', '.'}), Without(email2, {'@', '.'});
    var p1, p2 := prefix + s1 + ".pem", prefix + s2 + ".pem";
    if p1 == p2 {
      assert |s1| == |s2|;
      assert s1 == p1[|prefix|..|prefix| + |s1|];
      assert s2 == p2[|prefix|..|prefix| + |s2|];
    }
  }

  /** Production and staging never share an account key file, whatever the emails. */
  lemma AccountKeyPerEnvironment(email1: string, email2: string)
    ensures AccountKeyPath(email1, true) != AccountKeyPath(email2, false)
  {
    assert AccountKeyPath(email1, true)[5] == 'p';
    assert AccountKeyPath(email2, false)[5] == 's';
  }

  /** The account a run uses, and whether it had to register one. */
  datatype AccountSetup = AccountSetup(context: AcmeContext, registered: bool)

  /** What `CreateAcmeContext` decides from the files: a cached key with
      non-whitespace content is reused; otherwise a new account is
      registered, whose key is `registration` (`None` when `NewAccount` throws). */
  function AccountFor(files: map<string, string>, email: string, useProduction: bool, registration: Option<string>)
    : Result<AccountSetup, RunError>
  {
    var path := AccountKeyPath(email, useProduction);
    var pem := if path in files then files[path] else "";
    if !IsNullOrWhiteSpace(pem) then Success(AccountSetup(AcmeContext(DirectoryUri(useProduction), pem), false))
    else if registration.None? then Failure(RegistrationFailed)
    else Success(AccountSetup(AcmeContext(DirectoryUri(useProduction), registration.value), true))
  }

  /** The files after `CreateAcmeContext`: a registered account's key is written to its path. */
  function FilesAfter(files: map<string, string>, email: string, useProduction: bool, registration: Option<string>)
    : map<string, string>
  {
    var setup := AccountFor(files, email, useProduction, registration);
    if setup.Success? && setup.value.registered
    then files[AccountKeyPath(email, useProduction) := setup.value.context.accountKey]
    else files
  }

  /** The directories after `CreateAcmeContext`: a registered account's key
      directory is created if it was missing; nothing else is created. */
  function DirectoriesAfter(files: map<string, string>, directories: set<string>, email: string,
                            useProduction: bool, registration: Option<string>): set<string>
  {
    var setup := AccountFor(files, email, useProduction, registration);
    if setup.Success? && setup.value.registered
    then directories + {DirectoryName(AccountKeyPath(email, useProduction))}
    else directories
  }

  /** `CreateAcmeContext(email, useProduction)`. */
  method CreateAcmeContext(store: FileStore, email: string, useProduction: bool, registration: Option<string>)
    returns (r: Result<AcmeContext, RunError>)
    modifies store
    ensures var setup := AccountFor(old(store.files), email, useProduction, registration);
      && (setup.Failure? ==> r == Failure(setup.error))
      && (setup.Success? ==> r == Success(setup.value.context))
    ensures store.files == FilesAfter(old(store.files), email, useProduction, registration)
    ensures store.directories
      == DirectoriesAfter(old(store.files), old(store.directories), email, useProduction, registration)
  {
    var fileName := AccountKeyPath(email, useProduction);
    var accountPem := "";
    if store.Exists(fileName) {
      accountPem := store.ReadAllText(fileName);
    }
    if !IsNullOrWhiteSpace(accountPem) {
      return Success(AcmeContext(DirectoryUri(useProduction), accountPem));
    }
    // acme.NewAccount(email, true)
    if registration.None? {
      return Failure(RegistrationFailed);
    }
    var pemKey := registration.value;
    var dir := DirectoryName(fileName);
    if !store.DirectoryExists(dir) {
      store.CreateDirectory(dir);
    }
    var written := store.WriteAllText(fileName, pemKey);
    assert written;
    r := Success(AcmeContext(DirectoryUri(useProduction), pemKey));
  }

  /** A run that registered an account leaves its key where the next run
      with the same email and environment finds it: that run reuses the
      key and registers nothing. */
  lemma SecondRunReusesAccount(
    files: map<string, string>, email: string, useProduction: bool,
    registration: Option<string>, laterRegistration: Option<string>)
    requires registration.Some? && !IsNullOrWhiteSpace(registration.value)
    requires AccountFor(files, email, useProduction, registration).Success?
    ensures var first := AccountFor(files, email, useProduction, registration).value;
      var second := AccountFor(FilesAfter(files, email, useProduction, registration), email, useProduction, laterRegistration);
      second == Success(AccountSetup(first.context, false))
  {
  }

  /** Registering in one environment leaves the other's account untouched. */
  lemma AccountsPerEnvironment(
    files: map<string, string>, email: string, useProduction: bool,
    registration: Option<string>, otherRegistration: Option<string>)
    ensures AccountFor(FilesAfter(files, email, useProduction, registration), email, !useProduction, otherRegistration)
         == AccountFor(files, email, !useProduction, otherRegistration)
  {
    AccountKeyPerEnvironment(email, email);
  }

  // =====================================================================
  // Ordering and the DNS-01 proof

  const ChallengePrefix := "_acme-challenge."

  /** The TXT record name that proves control of `domain`; '*' is kept. */
  function ProofName(domain: string): string
  {
    ChallengePrefix + domain
  }

  /** Distinct domains publish their proofs under distinct names, and the
      proof of a wildcard domain keeps the '*'. */
  lemma ProofNames(domain1: string, domain2: string)
    ensures ProofName(domain1) == ProofName(domain2) <==> domain1 == domain2
    ensures '*' in domain1 ==> '*' in ProofName(domain1)
  {
    if ProofName(domain1) == ProofName(domain2) {
      assert domain1 == ProofName(domain1)[|ChallengePrefix|..];
      assert domain2 == ProofName(domain2)[|ChallengePrefix|..];
    }
    if '*' in domain1 {
      var i :| 0 <= i < |domain1| && domain1[i] == '*';
      assert ProofName(domain1)[|ChallengePrefix| + i] == '*';
    }
  }

  /** An order for one domain, the token of its first authorization's DNS
      challenge, and the TXT record that answers it. */
  datatype OrderInfo = OrderInfo(identifiers: seq<string>, challengeToken: string, txtName: string, txtValue: string)

  /** `CreateOrder(acme, domain)`. `challengeToken` is the token of the DNS
      challenge of the order's first authorization (`None` when one of the
      three ACME calls throws); `dnsTxt(key, token)` is the key
      authorization digest `AccountKey.DnsTxt(token)`. */
  function CreateOrder(acme: AcmeContext, domain: string, challengeToken: Option<string>,
                       dnsTxt: (string, string) -> string): (r: Result<OrderInfo, RunError>)
    ensures r.Success? <==> challengeToken.Some?
    ensures r.Failure? ==> r.error == OrderFailed
    ensures r.Success? ==>
      && r.value.identifiers == [domain]
      && r.value.challengeToken == challengeToken.value
      && r.value.txtName == ChallengePrefix + domain
      && r.value.txtValue == dnsTxt(acme.accountKey, challengeToken.value)
  {
    if challengeToken.None? then Failure(OrderFailed)
    else
      var token := challengeToken.value;
      Success(OrderInfo([domain], token, ProofName(domain), dnsTxt(acme.accountKey, token)))
  }

  /** `CreateDnsRecord(recordName, recordValue, token)`: the same upsert as
      `CfDnsHelper.UpsertRecord`, in the configured zone; the token is not used. */
  method CreateDnsRecord(dns: CloudflareDnsClient, config: CertManagerConfig, recordName: string, recordValue: string)
    returns (r: Result<DnsRecordResult, ApiError>)
    requires dns.Valid()
    modifies dns
    ensures dns.Valid()
    ensures config.zoneId !in old(dns.zones) ==>
      r == Failure(ZoneNotFound) && dns.zones == old(dns.zones) && dns.nextId == old(dns.nextId)
    ensures config.zoneId in old(dns.zones) ==>
      var u := Upsert(old(dns.zones[config.zoneId]), old(dns.nextId), recordName, recordValue);
      r == Success(u.result) && dns.zones == old(dns.zones)[config.zoneId := u.records] && dns.nextId == u.nextId
  {
    r := UpsertRecord(dns, config.zoneId, recordName, recordValue);
  }

  // =====================================================================
  // Issuing and importing

  /** `GetCartName(domain)`: '.' becomes '-' and "-lets" is appended; '*' is left as it is. */
  function GetCartName(domain: string): string
  {
    Replace(domain, '.', "-") + "-lets"
  }

  /** The name is the domain, character by character, with '-' for '.',
      followed by "-lets": it has no '.' and keeps every '*'. */
  lemma CartNameShape(domain: string)
    ensures var name := GetCartName(domain);
      && '.' !in name
      && |name| == |domain| + 5
      && (forall i :: 0 <= i < |domain| ==> name[i] == (if domain[i] == '.' then '-' else domain[i]))
      && name[|domain|..] == "-lets"
      && Count(name[..|domain|], '*') == Count(domain, '*')
  {
    ReplaceRemoves(domain, '.', "-");
    ReplaceOneByOne(domain, '.', '-');
    var body := Replace(domain, '.', "-");
    assert GetCartName(domain)[..|domain|] == body;
    CountPointwise(domain, body, '*');
  }

  lemma {:induction false} CountPointwise(s: string, t: string, c: char)
    requires |s| == |t|
    requires forall i :: 0 <= i < |s| ==> (s[i] == c <==> t[i] == c)
    ensures Count(s, c) == Count(t, c)
    decreases |s|
  {
    if s != [] {
      CountPointwise(s[1..], t[1..], c);
    }
  }

  /** The two certificate names agree exactly for domains without '*'. */
  lemma CartNameMatchesCertName(domain: string)
    ensures GetCartName(domain) == VaultHelper.GetCertName(domain) <==> '*' !in domain
  {
    if '*' in domain {
      CartNameShape(domain);
      VaultHelper.CertNameShape(domain);
      var i :| 0 <= i < |domain| && domain[i] == '*';
      ReplaceOneByOne(domain, '.', '-');
      assert GetCartName(domain)[i] == '*';
    } else {
      ReplaceAbsent(domain, '*', "start");
    }
  }

  /** The vault refuses the name `GetCartName` gives a wildcard domain. */
  lemma WildcardCartNameRejected(domain: string)
    requires '*' in domain
    ensures !IsObjectName(GetCartName(domain))
  {
    var i :| 0 <= i < |domain| && domain[i] == '*';
    ReplaceOneByOne(domain, '.', '-');
    assert GetCartName(domain)[i] == '*';
  }

  /** The signing request: the configured subject, no organizational unit,
      and the domain as common name. */
  function CsrFor(config: CertManagerConfig, domain: string): (csr: CsrInfo)
  {
    var info := config.certInfo;
    CsrInfo(info.countryName, info.state, info.locality, info.organization, None, domain)
  }

  /** The outcome of issuing, and the token observation count afterwards. */
  datatype Issued = Issued(result: Result<Pfx, RunError>, observations: nat)

  /** What `IssueCert` yields: `finalized` says whether `Finalize` accepted
      the signing request; the chain then comes from `TryDownload`. */
  function IssueOutcome(config: CertManagerConfig, domain: string, finalized: bool,
                        downloads: seq<Option<CertificateChain>>, token: Cancellation, obs: nat): Issued
  {
    if !finalized then Issued(Failure(FinalizeFailed), obs)
    else
      var run := DownloadFrom(downloads, token, 0, obs);
      match run.end
      case Downloaded(chain) => Issued(Success(Pfx(chain, GetCartName(domain), config.cfToken)), run.observations)
      case GaveUp => Issued(Failure(NullCertificateChain), run.observations)
      case Cancelled => Issued(Failure(DownloadCancelled), run.observations)
  }

  /** `IssueCert(acme, order, domain, token)`. */
  method IssueCert(config: CertManagerConfig, domain: string, finalized: bool,
                   downloads: seq<Option<CertificateChain>>, token: Cancellation, obs: nat)
    returns (issued: Issued)
    ensures issued == IssueOutcome(config, domain, finalized, downloads, token, obs)
  {
    // order.Finalize(CsrFor(config, domain), privateKey)
    if !finalized {
      return Issued(Failure(FinalizeFailed), obs);
    }
    var certChain := TryDownload(downloads, token, obs);
    match certChain.end {
      case Downloaded(chain) =>
        issued := Issued(Success(Pfx(chain, GetCartName(domain), config.cfToken)), certChain.observations);
      case GaveUp =>
        // certChain.ToPfx(privateKey) on null
        issued := Issued(Failure(NullCertificateChain), certChain.observations);
      case Cancelled =>
        issued := Issued(Failure(DownloadCancelled), certChain.observations);
    }
  }

  /** An issued bundle holds the first chain that downloaded, within five
      attempts, named `GetCartName(domain)` and locked with the Cloudflare
      token; `NullCertificateChain` means five downloads failed. */
  lemma IssuedBundle(config: CertManagerConfig, domain: string, finalized: bool,
                     downloads: seq<Option<CertificateChain>>, token: Cancellation, obs: nat)
    ensures var issued := IssueOutcome(config, domain, finalized, downloads, token, obs);
      && (issued.result.Success? ==>
            && finalized
            && issued.result.value.friendlyName == GetCartName(domain)
            && issued.result.value.password == config.cfToken
            && exists n :: 0 <= n < MaxTry && DownloadAttempt(downloads, n) == Some(issued.result.value.chain)
                 && forall k :: 0 <= k < n ==> DownloadAttempt(downloads, k).None?)
      && (issued.result == Failure(NullCertificateChain) ==>
            finalized && forall k :: 0 <= k < MaxTry ==> DownloadAttempt(downloads, k).None?)
  {
    if finalized {
      var run := DownloadFrom(downloads, token, 0, obs);
      DownloadLastCallDecides(downloads, token, 0, obs);
      DownloadRetriesOnlyFailures(downloads, token, 0, obs);
      if run.end == GaveUp {
        DownloadGaveUpOnlyAfterFive(downloads, token, 0, obs);
      }
    }
  }

  /** `AddCertToVault(domain, certBytes, token)`: like `VaultHelper.AddCert`,
      but under `GetCartName(domain)`. The import observes the token at `obs`. */
  method AddCertToVault(vault: CertificateClient, config: CertManagerConfig, domain: string, certBytes: Pfx,
                        expireAt: string, token: Cancellation, obs: nat)
    returns (r: Result<CertificateVersion, ImportError>)
    modifies vault
    ensures var outcome := Import(old(vault.certificates), GetCartName(domain), certBytes, true,
                                  config.cfToken, VaultHelper.LetsEncryptTags(expireAt), IsRequested(token, obs));
      && (outcome.Success? ==>
            r == Success(NewVersion(certBytes, true, VaultHelper.LetsEncryptTags(expireAt)))
            && vault.certificates == outcome.value)
      && (outcome.Failure? ==> r == Failure(outcome.error) && vault.certificates == old(vault.certificates))
  {
    r := vault.ImportCertificateAsync(GetCartName(domain), certBytes, true, config.cfToken,
                                      VaultHelper.LetsEncryptTags(expireAt), IsRequested(token, obs));
  }

  // =====================================================================
  // The run

  /** What the ACME side does for one domain. */
  datatype DomainScript = DomainScript(
    challengeToken: Option<string>,            // the DNS challenge's token; None when ordering throws
    statuses: seq<Option<ChallengeStatus>>,    // what successive `Validate` calls report; None when one throws
    finalized: bool,                           // whether `Finalize` accepts the request
    downloads: seq<Option<CertificateChain>>,  // what successive `Download` calls produce
    expireAt: string)                          // "now + 3 months - 1 day" at import, round-trip format

  /** The script of the `k`-th domain; past the end, ordering throws. */
  function ScriptAt(scripts: seq<DomainScript>, k: nat): DomainScript
  {
    if k < |scripts| then scripts[k] else DomainScript(None, [], false, [], "")
  }

  /** One completed step of the run. */
  datatype StepKind =
    | OrderCreated(txtName: string, txtValue: string)
    | DnsRecordWritten(record: DnsRecordResult)
    | ChallengeCompleted(validations: nat)
    | CertIssued(csr: CsrInfo, pfx: Pfx)
    | CertImported(name: string, version: CertificateVersion)

  datatype Step = Step(domain: string, kind: StepKind)

  /** The position of a step within a domain's sequence. */
  function Phase(kind: StepKind): nat
  {
    match kind
    case OrderCreated(_, _) => 0
    case DnsRecordWritten(_) => 1
    case ChallengeCompleted(_) => 2
    case CertIssued(_, _) => 3
    case CertImported(_, _) => 4
  }

  /** The state of the two services: the DNS provider's zones and id
      counter, and the vault's certificates. */
  datatype Services = Services(
    zones: map<string, seq<DnsRecordResult>>, nextId: RecordId,
    certificates: map<string, seq<CertificateVersion>>)

  datatype DomainEnd = DomainDone | DomainFailed(error: RunError) | DomainStuck

  /** One domain's processing: how it ended, the steps it completed, the
      services afterwards and the token observation count afterwards.
      `DomainStuck` means the challenge was still `Pending` when the fuel ran out. */
  datatype DomainRun = DomainRun(end: DomainEnd, steps: seq<Step>, services: Services, observations: nat)

  /** The body of the domain loop: order, DNS upsert, challenge, issue,
      import. Each stage below continues from the steps completed so far. */
  function RunDomain(config: CertManagerConfig, acme: AcmeContext, domain: string, script: DomainScript,
                     s: Services, token: Cancellation, obs: nat, fuel: nat,
                     dnsTxt: (string, string) -> string): DomainRun
  {
    var order := CreateOrder(acme, domain, script.challengeToken, dnsTxt);
    if order.Failure? then DomainRun(DomainFailed(order.error), [], s, obs)
    else AfterOrder(config, domain, script, order.value, s, token, obs, fuel)
  }

  /** Publishing the proof in the configured zone. */
  function AfterOrder(config: CertManagerConfig, domain: string, script: DomainScript, info: OrderInfo,
                      s: Services, token: Cancellation, obs: nat, fuel: nat): DomainRun
  {
    var ordered := [Step(domain, OrderCreated(info.txtName, info.txtValue))];
    if config.zoneId !in s.zones then DomainRun(DomainFailed(DnsFailed(ZoneNotFound)), ordered, s, obs)
    else
      var u := Upsert(s.zones[config.zoneId], s.nextId, info.txtName, info.txtValue);
      AfterDns(config, domain, script, ordered + [Step(domain, DnsRecordWritten(u.result))],
               s.(zones := s.zones[config.zoneId := u.records], nextId := u.nextId), token, obs, fuel)
  }

  /** Waiting for the challenge. */
  function AfterDns(config: CertManagerConfig, domain: string, script: DomainScript, steps: seq<Step>,
                    s: Services, token: Cancellation, obs: nat, fuel: nat): DomainRun
  {
    var poll := PollFrom(script.statuses, token, 0, obs, fuel);
    if poll.end == DelayCancelled then DomainRun(DomainFailed(ChallengeCancelled), steps, s, poll.observations)
    else if poll.end == ValidateThrew then DomainRun(DomainFailed(ValidateFailed), steps, s, poll.observations)
    else if poll.end == StillPolling then DomainRun(DomainStuck, steps, s, poll.observations)
    else AfterChallenge(config, domain, script, steps + [Step(domain, ChallengeCompleted(poll.validations))],
                        s, token, poll.observations)
  }

  /** Issuing the certificate. */
  function AfterChallenge(config: CertManagerConfig, domain: string, script: DomainScript, steps: seq<Step>,
                          s: Services, token: Cancellation, obs: nat): DomainRun
  {
    var issued := IssueOutcome(config, domain, script.finalized, script.downloads, token, obs);
    if issued.result.Failure? then DomainRun(DomainFailed(issued.result.error), steps, s, issued.observations)
    else AfterIssue(config, domain, script, steps + [Step(domain, CertIssued(CsrFor(config, domain), issued.result.value))],
                    issued.result.value, s, token, issued.observations)
  }

  /** Importing the bundle; the import observes the token once. */
  function AfterIssue(config: CertManagerConfig, domain: string, script: DomainScript, steps: seq<Step>,
                      pfx: Pfx, s: Services, token: Cancellation, obs: nat): DomainRun
  {
    var tags := VaultHelper.LetsEncryptTags(script.expireAt);
    var imported := Import(s.certificates, GetCartName(domain), pfx, true, config.cfToken, tags, IsRequested(token, obs));
    if imported.Failure? then DomainRun(DomainFailed(ImportFailed(imported.error)), steps, s, obs + 1)
    else DomainRun(DomainDone, steps + [Step(domain, CertImported(GetCartName(domain), NewVersion(pfx, true, tags)))],
                   s.(certificates := imported.value), obs + 1)
  }

  datatype RunEnd =
    | Completed                 // every domain was processed
    | AccountFailed             // no account: nothing else ran
    | Failed(at: nat, error: RunError)   // domain `at` threw; later domains were not processed
    | Stuck(at: nat)            // domain `at`'s challenge was still polling when the fuel ran out

  datatype RunResult = RunResult(end: RunEnd, steps: seq<Step>, services: Services, observations: nat)

  /** The domain loop from the `k`-th domain on. */
  function RunFrom(config: CertManagerConfig, acme: AcmeContext, scripts: seq<DomainScript>, k: nat,
                   s: Services, token: Cancellation, obs: nat, fuel: nat,
                   dnsTxt: (string, string) -> string): RunResult
    requires k <= |config.domains|
    decreases |config.domains| - k
  {
    if k == |config.domains| then RunResult(Completed, [], s, obs)
    else
      var d := RunDomain(config, acme, config.domains[k], ScriptAt(scripts, k), s, token, obs, fuel, dnsTxt);
      match d.end
      case DomainFailed(e) => RunResult(Failed(k, e), d.steps, d.services, d.observations)
      case DomainStuck => RunResult(Stuck(k), d.steps, d.services, d.observations)
      case DomainDone =>
        var rest := RunFrom(config, acme, scripts, k + 1, d.services, token, d.observations, fuel, dnsTxt);
        rest.(steps := d.steps + rest.steps)
  }

  /** A whole run: the account, then the domain loop. */
  function Run(config: CertManagerConfig, files: map<string, string>, s: Services, registration: Option<string>,
               scripts: seq<DomainScript>, token: Cancellation, obs0: nat, fuel: nat,
               dnsTxt: (string, string) -> string): RunResult
  {
    var account := AccountFor(files, config.letsEncryptEmail, config.productionEnabled, registration);
    if account.Failure? then RunResult(AccountFailed, [], s, obs0)
    else RunFrom(config, account.value.context, scripts, 0, s, token, obs0, fuel, dnsTxt)
  }

  /** One pass of the domain loop (the `try` block; its `finally` does
      nothing): ordering and publishing the proof, then the rest in `FinishDomain`. */
  method ProcessDomain(config: CertManagerConfig, acme: AcmeContext, domain: string, script: DomainScript,
                       dns: CloudflareDnsClient, vault: CertificateClient, token: Cancellation, obs: nat, fuel: nat,
                       dnsTxt: (string, string) -> string)
    returns (end: DomainEnd, steps: seq<Step>, observations: nat)
    requires dns.Valid()
    modifies dns, vault
    ensures dns.Valid()
    ensures var d := RunDomain(config, acme, domain, script,
                               Services(old(dns.zones), old(dns.nextId), old(vault.certificates)),
                               token, obs, fuel, dnsTxt);
      && end == d.end && steps == d.steps && observations == d.observations
      && Services(dns.zones, dns.nextId, vault.certificates) == d.services
  {
    ghost var s0 := Services(dns.zones, dns.nextId, vault.certificates);
    var info := CreateOrder(acme, domain, script.challengeToken, dnsTxt);
    if info.Failure? {
      return DomainFailed(info.error), [], obs;
    }
    steps := [Step(domain, OrderCreated(info.value.txtName, info.value.txtValue))];
    var record := CreateDnsRecord(dns, config, info.value.txtName, info.value.txtValue);
    if record.Failure? {
      return DomainFailed(DnsFailed(record.error)), steps, obs;
    }
    steps := steps + [Step(domain, DnsRecordWritten(record.value))];
    end, steps, observations := FinishDomain(config, domain, script, steps, dns, vault, token, obs, fuel);
  }

  /** The loop body from `TryChallenge` on: challenge, issue, import. */
  method FinishDomain(config: CertManagerConfig, domain: string, script: DomainScript, steps0: seq<Step>,
                      dns: CloudflareDnsClient, vault: CertificateClient, token: Cancellation, obs: nat, fuel: nat)
    returns (end: DomainEnd, steps: seq<Step>, observations: nat)
    modifies vault
    ensures var d := AfterDns(config, domain, script, steps0,
                              Services(dns.zones, dns.nextId, old(vault.certificates)), token, obs, fuel);
      && end == d.end && steps == d.steps && observations == d.observations
      && Services(dns.zones, dns.nextId, vault.certificates) == d.services
  {
    ghost var s1 := Services(dns.zones, dns.nextId, vault.certificates);
    steps := steps0;
    var poll := TryChallenge(script.statuses, token, obs, fuel);
    observations := poll.observations;
    if poll.end == DelayCancelled {
      return DomainFailed(ChallengeCancelled), steps, observations;
    }
    if poll.end == ValidateThrew {
      return DomainFailed(ValidateFailed), steps, observations;
    }
    if poll.end == StillPolling {
      return DomainStuck, steps, observations;
    }
    steps := steps + [Step(domain, ChallengeCompleted(poll.validations))];
    var issued := IssueCert(config, domain, script.finalized, script.downloads, token, observations);
    if issued.result.Failure? {
      return DomainFailed(issued.result.error), steps, issued.observations;
    }
    var certs := issued.result.value;
    steps := steps + [Step(domain, CertIssued(CsrFor(config, domain), certs))];
    observations := issued.observations;
    var imported := AddCertToVault(vault, config, domain, certs, script.expireAt, token, observations);
    observations := observations + 1;
    if imported.Failure? {
      return DomainFailed(ImportFailed(imported.error)), steps, observations;
    }
    steps := steps + [Step(domain, CertImported(GetCartName(domain), imported.value))];
    end := DomainDone;
  }

  /** The loop so far has made `steps` and the rest of the loop, `rest`,
      completes them to the whole run `spec`. */
  predicate Continues(spec: RunResult, steps: seq<Step>, rest: RunResult)
  {
    rest.end == spec.end && steps + rest.steps == spec.steps
    && rest.services == spec.services && rest.observations == spec.observations
  }

  /** A domain that is done hands over to the next one. */
  lemma ContinuesAfterDone(spec: RunResult, steps: seq<Step>, config: CertManagerConfig, acme: AcmeContext,
                           scripts: seq<DomainScript>, k: nat, s: Services, token: Cancellation, obs: nat,
                           fuel: nat, dnsTxt: (string, string) -> string)
    requires k < |config.domains|
    requires Continues(spec, steps, RunFrom(config, acme, scripts, k, s, token, obs, fuel, dnsTxt))
    requires RunDomain(config, acme, config.domains[k], ScriptAt(scripts, k), s, token, obs, fuel, dnsTxt).end == DomainDone
    ensures var d := RunDomain(config, acme, config.domains[k], ScriptAt(scripts, k), s, token, obs, fuel, dnsTxt);
      Continues(spec, steps + d.steps, RunFrom(config, acme, scripts, k + 1, d.services, token, d.observations, fuel, dnsTxt))
  {
    var d := RunDomain(config, acme, config.domains[k], ScriptAt(scripts, k), s, token, obs, fuel, dnsTxt);
    var next := RunFrom(config, acme, scripts, k + 1, d.services, token, d.observations, fuel, dnsTxt);
    assert steps + (d.steps + next.steps) == (steps + d.steps) + next.steps;
  }

  /** A domain that fails or stalls ends the run. */
  lemma ContinuesToEnd(spec: RunResult, steps: seq<Step>, config: CertManagerConfig, acme: AcmeContext,
                       scripts: seq<DomainScript>, k: nat, s: Services, token: Cancellation, obs: nat,
                       fuel: nat, dnsTxt: (string, string) -> string)
    requires k < |config.domains|
    requires Continues(spec, steps, RunFrom(config, acme, scripts, k, s, token, obs, fuel, dnsTxt))
    ensures var d := RunDomain(config, acme, config.domains[k], ScriptAt(scripts, k), s, token, obs, fuel, dnsTxt);
      && (d.end.DomainFailed? ==> spec == RunResult(Failed(k, d.end.error), steps + d.steps, d.services, d.observations))
      && (d.end.DomainStuck? ==> spec == RunResult(Stuck(k), steps + d.steps, d.services, d.observations))
  {
  }

  /** `CreateCertOrder(token)`: one account for the whole run, then the
      domain loop. */
  method CreateCertOrder(config: CertManagerConfig, store: FileStore, dns: CloudflareDnsClient, vault: CertificateClient,
                         registration: Option<string>, scripts: seq<DomainScript>, token: Cancellation, obs0: nat,
                         fuel: nat, dnsTxt: (string, string) -> string)
    returns (result: RunResult)
    requires dns.Valid()
    modifies store, dns, vault
    ensures dns.Valid()
    ensures result == Run(config, old(store.files), Services(old(dns.zones), old(dns.nextId), old(vault.certificates)),
                          registration, scripts, token, obs0, fuel, dnsTxt)
    ensures Services(dns.zones, dns.nextId, vault.certificates) == result.services
    ensures store.files == FilesAfter(old(store.files), config.letsEncryptEmail, config.productionEnabled, registration)
    ensures store.directories == DirectoriesAfter(old(store.files), old(store.directories),
                                                  config.letsEncryptEmail, config.productionEnabled, registration)
  {
    var acme := CreateAcmeContext(store, config.letsEncryptEmail, config.productionEnabled, registration);
    if acme.Failure? {
      return RunResult(AccountFailed, [], Services(dns.zones, dns.nextId, vault.certificates), obs0);
    }
    result := ProcessDomains(config, acme.value, scripts, dns, vault, token, obs0, fuel, dnsTxt);
  }

  /** The `foreach` over the configured domains, in order; the first
      failure ends the run. */
  method ProcessDomains(config: CertManagerConfig, acme: AcmeContext, scripts: seq<DomainScript>,
                        dns: CloudflareDnsClient, vault: CertificateClient, token: Cancellation, obs0: nat,
                        fuel: nat, dnsTxt: (string, string) -> string)
    returns (result: RunResult)
    requires dns.Valid()
    modifies dns, vault
    ensures dns.Valid()
    ensures result == RunFrom(config, acme, scripts, 0, Services(old(dns.zones), old(dns.nextId), old(vault.certificates)),
                              token, obs0, fuel, dnsTxt)
    ensures Services(dns.zones, dns.nextId, vault.certificates) == result.services
  {
    ghost var spec := RunFrom(config, acme, scripts, 0, Services(dns.zones, dns.nextId, vault.certificates),
                              token, obs0, fuel, dnsTxt);
    var steps: seq<Step> := [];
    var obs := obs0;
    assert steps + spec.steps == spec.steps;
    for k := 0 to |config.domains|
      invariant dns.Valid()
      invariant Continues(spec, steps, RunFrom(config, acme, scripts, k, Services(dns.zones, dns.nextId, vault.certificates),
                                               token, obs, fuel, dnsTxt))
    {
      ghost var before := Services(dns.zones, dns.nextId, vault.certificates);
      var end, domainSteps, observations := ProcessDomain(config, acme, config.domains[k], ScriptAt(scripts, k),
                                                          dns, vault, token, obs, fuel, dnsTxt);
      if end != DomainDone {
        ContinuesToEnd(spec, steps, config, acme, scripts, k, before, token, obs, fuel, dnsTxt);
        var failure := if end.DomainStuck? then Stuck(k) else Failed(k, end.error);
        return RunResult(failure, steps + domainSteps, Services(dns.zones, dns.nextId, vault.certificates), observations);
      }
      ContinuesAfterDone(spec, steps, config, acme, scripts, k, before, token, obs, fuel, dnsTxt);
      steps := steps + domainSteps;
      obs := observations;
    }
    result := RunResult(Completed, steps, Services(dns.zones, dns.nextId, vault.certificates), obs);
  }

  // =====================================================================
  // What a run does

  /** What each step records, as the source fixes it: the proof name and
      the key authorization of the run's one account, a TXT record with
      TTL 120, at least one validation with every earlier one `Pending`, the
      configured subject with the domain as common name and no
      organizational unit, and a bundle and an import named
      `GetCartName(domain)`, locked with the Cloudflare token, enabled and
      tagged with exactly the Let's Encrypt tags. */
  predicate StepMeets(config: CertManagerConfig, acme: AcmeContext, dnsTxt: (string, string) -> string,
                      script: DomainScript, step: Step)
  {
    var domain := step.domain;
    match step.kind
    case OrderCreated(name, value) =>
      name == ProofName(domain) && script.challengeToken.Some?
      && value == dnsTxt(acme.accountKey, script.challengeToken.value)
    case DnsRecordWritten(result) =>
      && script.challengeToken.Some?
      && result.record == DnsRecord(TXT, ProofName(domain), dnsTxt(acme.accountKey, script.challengeToken.value), 120, false)
    case ChallengeCompleted(n) =>
      1 <= n && forall j :: 0 <= j < n - 1 ==> PendingAt(script.statuses, j)
    case CertIssued(csr, pfx) =>
      && script.finalized
      && csr.commonName == domain && csr.organizationUnit.None?
      && csr.countryName == config.certInfo.countryName && csr.state == config.certInfo.state
      && csr.locality == config.certInfo.locality && csr.organization == config.certInfo.organization
      && pfx.friendlyName == GetCartName(domain) && pfx.password == config.cfToken
    case CertImported(name, version) =>
      && name == GetCartName(domain) && version.enabled
      && version.tags == VaultHelper.LetsEncryptTags(script.expireAt)
      && version.content.password == config.cfToken
      && version.expiresOn == Some(version.content.chain.notAfter)
  }

  /** Steps of one domain: each about `domain`, at its own phase, and as the source fixes it. */
  predicate WellStepped(config: CertManagerConfig, acme: AcmeContext, dnsTxt: (string, string) -> string,
                        script: DomainScript, domain: string, steps: seq<Step>)
  {
    forall i :: 0 <= i < |steps| ==>
      steps[i].domain == domain && Phase(steps[i].kind) == i && StepMeets(config, acme, dnsTxt, script, steps[i])
  }

  lemma WellSteppedAppend(config: CertManagerConfig, acme: AcmeContext, dnsTxt: (string, string) -> string,
                          script: DomainScript, domain: string, steps: seq<Step>, step: Step)
    requires WellStepped(config, acme, dnsTxt, script, domain, steps)
    requires step.domain == domain && Phase(step.kind) == |steps| && StepMeets(config, acme, dnsTxt, script, step)
    ensures WellStepped(config, acme, dnsTxt, script, domain, steps + [step])
  {
    var all := steps + [step];
    forall i | 0 <= i < |all|
      ensures all[i].domain == domain && Phase(all[i].kind) == i && StepMeets(config, acme, dnsTxt, script, all[i])
    {
      if i < |steps| { assert all[i] == steps[i]; }
    }
  }

  /** No DNS record is ever deleted or moved: every zone keeps its records,
      each at its place under its id (the cleanup in `finally` is disabled). */
  predicate KeepsRecords(before: map<string, seq<DnsRecordResult>>, after: map<string, seq<DnsRecordResult>>)
  {
    && before.Keys == after.Keys
    && forall z :: z in before ==>
         |before[z]| <= |after[z]| && forall i :: 0 <= i < |before[z]| ==> after[z][i].id == before[z][i].id
  }

  /** Every certificate keeps its versions; new ones only come in front. */
  predicate KeepsVersions(before: map<string, seq<CertificateVersion>>, after: map<string, seq<CertificateVersion>>)
  {
    forall n :: n in before ==>
      n in after && |before[n]| <= |after[n]| && after[n][|after[n]| - |before[n]|..] == before[n]
  }

  predicate Keeps(before: Services, after: Services)
  {
    KeepsRecords(before.zones, after.zones) && KeepsVersions(before.certificates, after.certificates)
  }

  lemma KeepsTransitive(a: Services, b: Services, c: Services)
    requires Keeps(a, b) && Keeps(b, c)
    ensures Keeps(a, c)
  {
    forall n | n in a.certificates
      ensures n in c.certificates && |a.certificates[n]| <= |c.certificates[n]|
      ensures c.certificates[n][|c.certificates[n]| - |a.certificates[n]|..] == a.certificates[n]
    {
      var x, y, z := a.certificates[n], b.certificates[n], c.certificates[n];
      assert z[|z| - |y|..][|y| - |x|..] == z[|z| - |x|..];
    }
  }

  /** What one domain's processing, from a stage on, guarantees: well-formed
      steps, at least the `n0` it started with and at most five, all five
      exactly when the domain is done, nothing deleted from either service,
      and, when done, the imported version listed first under its name. */
  predicate DomainShape(config: CertManagerConfig, acme: AcmeContext, dnsTxt: (string, string) -> string,
                        script: DomainScript, domain: string, s: Services, n0: nat, d: DomainRun)
  {
    && WellStepped(config, acme, dnsTxt, script, domain, d.steps)
    && n0 <= |d.steps| <= 5
    && (d.end == DomainDone <==> |d.steps| == 5)
    && Keeps(s, d.services)
    && (d.end == DomainDone ==>
          d.steps[4].kind.CertImported?
          && VersionsOf(d.services.certificates, GetCartName(domain)) != []
          && VersionsOf(d.services.certificates, GetCartName(domain))[0] == d.steps[4].kind.version)
  }

  lemma KeepsItself(s: Services)
    ensures Keeps(s, s)
  {
  }

  lemma AfterIssueShape(config: CertManagerConfig, acme: AcmeContext, dnsTxt: (string, string) -> string,
                        domain: string, script: DomainScript, steps: seq<Step>, pfx: Pfx,
                        s: Services, token: Cancellation, obs: nat)
    requires |steps| == 4 && WellStepped(config, acme, dnsTxt, script, domain, steps)
    requires pfx.password == config.cfToken
    ensures DomainShape(config, acme, dnsTxt, script, domain, s, 4, AfterIssue(config, domain, script, steps, pfx, s, token, obs))
  {
    var d := AfterIssue(config, domain, script, steps, pfx, s, token, obs);
    KeepsItself(s);
    if d.end == DomainDone {
      var name := GetCartName(domain);
      var tags := VaultHelper.LetsEncryptTags(script.expireAt);
      var imported := Import(s.certificates, name, pfx, true, config.cfToken, tags, IsRequested(token, obs));
      var step := Step(domain, CertImported(name, NewVersion(pfx, true, tags)));
      WellSteppedAppend(config, acme, dnsTxt, script, domain, steps, step);
      forall n | n in s.certificates
        ensures n in d.services.certificates && |s.certificates[n]| <= |d.services.certificates[n]|
        ensures d.services.certificates[n][|d.services.certificates[n]| - |s.certificates[n]|..] == s.certificates[n]
      {
        if n == name {
          assert d.services.certificates[n][1..] == s.certificates[n];
        }
      }
    }
  }

  lemma AfterChallengeShape(config: CertManagerConfig, acme: AcmeContext, dnsTxt: (string, string) -> string,
                            domain: string, script: DomainScript, steps: seq<Step>,
                            s: Services, token: Cancellation, obs: nat)
    requires |steps| == 3 && WellStepped(config, acme, dnsTxt, script, domain, steps)
    ensures DomainShape(config, acme, dnsTxt, script, domain, s, 3, AfterChallenge(config, domain, script, steps, s, token, obs))
  {
    var issued := IssueOutcome(config, domain, script.finalized, script.downloads, token, obs);
    KeepsItself(s);
    if issued.result.Success? {
      IssuedBundle(config, domain, script.finalized, script.downloads, token, obs);
      var step := Step(domain, CertIssued(CsrFor(config, domain), issued.result.value));
      WellSteppedAppend(config, acme, dnsTxt, script, domain, steps, step);
      AfterIssueShape(config, acme, dnsTxt, domain, script, steps + [step], issued.result.value, s, token, issued.observations);
    }
  }

  lemma AfterDnsShape(config: CertManagerConfig, acme: AcmeContext, dnsTxt: (string, string) -> string,
                      domain: string, script: DomainScript, steps: seq<Step>,
                      s: Services, token: Cancellation, obs: nat, fuel: nat)
    requires |steps| == 2 && WellStepped(config, acme, dnsTxt, script, domain, steps)
    ensures DomainShape(config, acme, dnsTxt, script, domain, s, 2, AfterDns(config, domain, script, steps, s, token, obs, fuel))
  {
    var poll := PollFrom(script.statuses, token, 0, obs, fuel);
    PollOutcome(script.statuses, token, 0, obs, fuel);
    KeepsItself(s);
    if poll.end != DelayCancelled && poll.end != ValidateThrew && poll.end != StillPolling {
      var step := Step(domain, ChallengeCompleted(poll.validations));
      WellSteppedAppend(config, acme, dnsTxt, script, domain, steps, step);
      AfterChallengeShape(config, acme, dnsTxt, domain, script, steps + [step], s, token, poll.observations);
    }
  }

  lemma AfterOrderShape(config: CertManagerConfig, acme: AcmeContext, dnsTxt: (string, string) -> string,
                        domain: string, script: DomainScript, s: Services, token: Cancellation, obs: nat, fuel: nat)
    requires script.challengeToken.Some?
    ensures var info := CreateOrder(acme, domain, script.challengeToken, dnsTxt).value;
      DomainShape(config, acme, dnsTxt, script, domain, s, 1, AfterOrder(config, domain, script, info, s, token, obs, fuel))
  {
    var info := CreateOrder(acme, domain, script.challengeToken, dnsTxt).value;
    var ordered := [Step(domain, OrderCreated(info.txtName, info.txtValue))];
    KeepsItself(s);
    WellSteppedAppend(config, acme, dnsTxt, script, domain, [], ordered[0]);
    assert [] + [ordered[0]] == ordered;
    if config.zoneId in s.zones {
      var u := Upsert(s.zones[config.zoneId], s.nextId, info.txtName, info.txtValue);
      UpsertLeavesOthers(s.zones[config.zoneId], s.nextId, info.txtName, info.txtValue);
      var s1 := s.(zones := s.zones[config.zoneId := u.records], nextId := u.nextId);
      var step := Step(domain, DnsRecordWritten(u.result));
      WellSteppedAppend(config, acme, dnsTxt, script, domain, ordered, step);
      AfterDnsShape(config, acme, dnsTxt, domain, script, ordered + [step], s1, token, obs, fuel);
      KeepsTransitive(s, s1, AfterOrder(config, domain, script, info, s, token, obs, fuel).services);
    }
  }

  /** One domain: its steps are a prefix of order, DNS write, challenge,
      issue, import, in that order, all about that domain and as the source
      fixes them; all five exactly when the domain is done; no DNS record
      or certificate version is deleted; and the version imported is then
      the newest under its name. */
  lemma DomainSteps(config: CertManagerConfig, acme: AcmeContext, domain: string, script: DomainScript,
                    s: Services, token: Cancellation, obs: nat, fuel: nat, dnsTxt: (string, string) -> string)
    ensures DomainShape(config, acme, dnsTxt, script, domain, s, 0, RunDomain(config, acme, domain, script, s, token, obs, fuel, dnsTxt))
  {
    KeepsItself(s);
    if script.challengeToken.Some? {
      AfterOrderShape(config, acme, dnsTxt, domain, script, s, token, obs, fuel);
    }
  }

  lemma DomainStepCount(config: CertManagerConfig, acme: AcmeContext, domain: string, script: DomainScript,
                        s: Services, token: Cancellation, obs: nat, fuel: nat, dnsTxt: (string, string) -> string)
    ensures var d := RunDomain(config, acme, domain, script, s, token, obs, fuel, dnsTxt);
      |d.steps| <= 5 && (d.end == DomainDone <==> |d.steps| == 5)
  {
    DomainSteps(config, acme, domain, script, s, token, obs, fuel, dnsTxt);
  }

  /** Steps of a run from domain `k`: step `i` is about domain `k + i / 5`,
      at phase `i % 5`, and as the source fixes it. */
  predicate RunStepsFrom(config: CertManagerConfig, acme: AcmeContext, dnsTxt: (string, string) -> string,
                         scripts: seq<DomainScript>, k: nat, steps: seq<Step>)
  {
    forall i :: 0 <= i < |steps| ==>
      && k + i / 5 < |config.domains| && steps[i].domain == config.domains[k + i / 5]
      && Phase(steps[i].kind) == i % 5
      && StepMeets(config, acme, dnsTxt, ScriptAt(scripts, k + i / 5), steps[i])
  }

  lemma FirstDomainSteps(config: CertManagerConfig, acme: AcmeContext, dnsTxt: (string, string) -> string,
                         scripts: seq<DomainScript>, k: nat, steps: seq<Step>)
    requires k < |config.domains| && |steps| <= 5
    requires WellStepped(config, acme, dnsTxt, ScriptAt(scripts, k), config.domains[k], steps)
    ensures RunStepsFrom(config, acme, dnsTxt, scripts, k, steps)
  {
    forall i | 0 <= i < |steps| ensures i / 5 == 0 && i % 5 == i {
    }
  }

  lemma NextDomainSteps(config: CertManagerConfig, acme: AcmeContext, dnsTxt: (string, string) -> string,
                        scripts: seq<DomainScript>, k: nat, first: seq<Step>, rest: seq<Step>)
    requires k < |config.domains| && |first| == 5
    requires WellStepped(config, acme, dnsTxt, ScriptAt(scripts, k), config.domains[k], first)
    requires RunStepsFrom(config, acme, dnsTxt, scripts, k + 1, rest)
    ensures RunStepsFrom(config, acme, dnsTxt, scripts, k, first + rest)
  {
    FirstDomainSteps(config, acme, dnsTxt, scripts, k, first);
    var all := first + rest;
    forall i | 0 <= i < |all|
      ensures k + i / 5 < |config.domains| && all[i].domain == config.domains[k + i / 5]
      ensures Phase(all[i].kind) == i % 5
      ensures StepMeets(config, acme, dnsTxt, ScriptAt(scripts, k + i / 5), all[i])
    {
      if i >= 5 {
        assert all[i] == rest[i - 5];
        assert k + 1 + (i - 5) / 5 == k + i / 5 && (i - 5) % 5 == i % 5;
      } else {
        assert all[i] == first[i];
      }
    }
  }

  /** A run from domain `k` never fails on the account, and its steps go
      through the configured domains in order, each as the source fixes it
      (`RunStepsFrom`); once a domain fails or stalls, no later domain has a
      step. The exact step counts are `RunStepCounts`. */
  lemma {:induction false} RunSteps(config: CertManagerConfig, acme: AcmeContext, scripts: seq<DomainScript>, k: nat,
                                    s: Services, token: Cancellation, obs: nat, fuel: nat,
                                    dnsTxt: (string, string) -> string)
    requires k <= |config.domains|
    ensures var r := RunFrom(config, acme, scripts, k, s, token, obs, fuel, dnsTxt);
      && !r.end.AccountFailed?
      && RunStepsFrom(config, acme, dnsTxt, scripts, k, r.steps)
      && ((r.end.Failed? || r.end.Stuck?) ==> |r.steps| < 5 * (r.end.at - k) + 5)
    decreases |config.domains| - k
  {
    RunStepCounts(config, acme, scripts, k, s, token, obs, fuel, dnsTxt);
    if k < |config.domains| {
      var d := RunDomain(config, acme, config.domains[k], ScriptAt(scripts, k), s, token, obs, fuel, dnsTxt);
      DomainSteps(config, acme, config.domains[k], ScriptAt(scripts, k), s, token, obs, fuel, dnsTxt);
      if d.end == DomainDone {
        var rest := RunFrom(config, acme, scripts, k + 1, d.services, token, d.observations, fuel, dnsTxt);
        RunSteps(config, acme, scripts, k + 1, d.services, token, d.observations, fuel, dnsTxt);
        NextDomainSteps(config, acme, dnsTxt, scripts, k, d.steps, rest.steps);
      } else {
        FirstDomainSteps(config, acme, dnsTxt, scripts, k, d.steps);
      }
    }
  }

  /** A completed run made five steps per domain from `k` on; a run that
      failed or stalled at domain `at` made five steps for each domain before
      it and fewer than five for `at`. */
  lemma {:induction false} RunStepCounts(config: CertManagerConfig, acme: AcmeContext, scripts: seq<DomainScript>, k: nat,
                                         s: Services, token: Cancellation, obs: nat, fuel: nat,
                                         dnsTxt: (string, string) -> string)
    requires k <= |config.domains|
    ensures var r := RunFrom(config, acme, scripts, k, s, token, obs, fuel, dnsTxt);
      && (r.end == Completed ==> |r.steps| == 5 * (|config.domains| - k))
      && ((r.end.Failed? || r.end.Stuck?) ==>
            k <= r.end.at < |config.domains| && 5 * (r.end.at - k) <= |r.steps| < 5 * (r.end.at - k) + 5)
    decreases |config.domains| - k
  {
    if k < |config.domains| {
      var d := RunDomain(config, acme, config.domains[k], ScriptAt(scripts, k), s, token, obs, fuel, dnsTxt);
      DomainStepCount(config, acme, config.domains[k], ScriptAt(scripts, k), s, token, obs, fuel, dnsTxt);
      if d.end == DomainDone {
        RunStepCounts(config, acme, scripts, k + 1, d.services, token, d.observations, fuel, dnsTxt);
      }
    }
  }

  /** A run deletes no DNS record and no certificate version. */
  lemma {:induction false} RunKeeps(config: CertManagerConfig, acme: AcmeContext, scripts: seq<DomainScript>, k: nat,
                                    s: Services, token: Cancellation, obs: nat, fuel: nat,
                                    dnsTxt: (string, string) -> string)
    requires k <= |config.domains|
    ensures Keeps(s, RunFrom(config, acme, scripts, k, s, token, obs, fuel, dnsTxt).services)
    decreases |config.domains| - k
  {
    if k == |config.domains| {
      KeepsItself(s);
    } else {
      var d := RunDomain(config, acme, config.domains[k], ScriptAt(scripts, k), s, token, obs, fuel, dnsTxt);
      DomainSteps(config, acme, config.domains[k], ScriptAt(scripts, k), s, token, obs, fuel, dnsTxt);
      if d.end == DomainDone {
        var rest := RunFrom(config, acme, scripts, k + 1, d.services, token, d.observations, fuel, dnsTxt);
        RunKeeps(config, acme, scripts, k + 1, d.services, token, d.observations, fuel, dnsTxt);
        KeepsTransitive(s, d.services, rest.services);
      }
    }
  }

  /** A wildcard domain is never done: the vault refuses the name its bundle is imported under. */
  lemma WildcardDomainNeverDone(config: CertManagerConfig, acme: AcmeContext, domain: string, script: DomainScript,
                                s: Services, token: Cancellation, obs: nat, fuel: nat, dnsTxt: (string, string) -> string)
    requires '*' in domain
    ensures RunDomain(config, acme, domain, script, s, token, obs, fuel, dnsTxt).end != DomainDone
  {
    WildcardCartNameRejected(domain);
    DomainSteps(config, acme, domain, script, s, token, obs, fuel, dnsTxt);
  }

  /** So a run with a wildcard domain among those still to process never completes. */
  lemma {:induction false} WildcardRunNeverCompletes(config: CertManagerConfig, acme: AcmeContext, scripts: seq<DomainScript>,
                                                     k: nat, s: Services, token: Cancellation, obs: nat, fuel: nat,
                                                     dnsTxt: (string, string) -> string)
    requires k <= |config.domains|
    requires exists j :: k <= j < |config.domains| && '*' in config.domains[j]
    ensures RunFrom(config, acme, scripts, k, s, token, obs, fuel, dnsTxt).end != Completed
    decreases |config.domains| - k
  {
    var d := RunDomain(config, acme, config.domains[k], ScriptAt(scripts, k), s, token, obs, fuel, dnsTxt);
    if '*' in config.domains[k] {
      WildcardDomainNeverDone(config, acme, config.domains[k], ScriptAt(scripts, k), s, token, obs, fuel, dnsTxt);
    } else if d.end == DomainDone {
      WildcardRunNeverCompletes(config, acme, scripts, k + 1, d.services, token, d.observations, fuel, dnsTxt);
    }
  }

  /** For a domain without '*', the certificate a done domain imported is
      the one `VaultHelper.GetCurrentCertExpiration` finds, with its expiry. */
  lemma ImportedCertIsFound(config: CertManagerConfig, acme: AcmeContext, domain: string, script: DomainScript,
                            s: Services, token: Cancellation, obs: nat, fuel: nat, dnsTxt: (string, string) -> string,
                            parse: string -> Option<int>)
    requires '*' !in domain
    requires RunDomain(config, acme, domain, script, s, token, obs, fuel, dnsTxt).end == DomainDone
    ensures var d := RunDomain(config, acme, domain, script, s, token, obs, fuel, dnsTxt);
      && |d.steps| == 5 && d.steps[4].kind.CertImported?
      && VaultHelper.CurrentExpiration(d.services.certificates, VaultHelper.GetCertName(domain), parse)
         == Some(d.steps[4].kind.version.content.chain.notAfter)
  {
    CartNameMatchesCertName(domain);
    DomainSteps(config, acme, domain, script, s, token, obs, fuel, dnsTxt);
  }

  /** A `Validate` call that throws is not caught anywhere: when the `n`-th
      call of domain `k`'s poll throws, the earlier ones reported `Pending`
      and the token was not seen cancelled before it, the domain fails after
      its order and DNS write, and the run ends there. */
  lemma ThrowingValidateStopsRun(config: CertManagerConfig, acme: AcmeContext, scripts: seq<DomainScript>,
                                 k: nat, s: Services, token: Cancellation, obs: nat, fuel: nat,
                                 dnsTxt: (string, string) -> string, n: nat)
    requires k < |config.domains| && fuel > n
    requires ScriptAt(scripts, k).challengeToken.Some? && config.zoneId in s.zones
    requires forall j :: 0 <= j < n ==> PendingAt(ScriptAt(scripts, k).statuses, j)
    requires ValidationAt(ScriptAt(scripts, k).statuses, n).None?
    requires !IsRequested(token, obs + 3 * n)
    ensures var r := RunFrom(config, acme, scripts, k, s, token, obs, fuel, dnsTxt);
      r.end == Failed(k, ValidateFailed) && |r.steps| == 2 && r.observations == obs + 3 * n + 1
  {
    PollThrowsAt(ScriptAt(scripts, k).statuses, token, 0, obs, fuel, n);
  }

  /** With the token already cancelled, the next domain stops at the
      challenge's first delay: its order and DNS write happen, nothing else,
      and the run ends there. */
  lemma CancelledRunStops(config: CertManagerConfig, acme: AcmeContext, scripts: seq<DomainScript>,
                          k: nat, s: Services, token: Cancellation, obs: nat, fuel: nat,
                          dnsTxt: (string, string) -> string)
    requires k < |config.domains| && fuel > 0 && IsRequested(token, obs)
    ensures var r := RunFrom(config, acme, scripts, k, s, token, obs, fuel, dnsTxt);
      && r.end.Failed? && r.end.at == k && |r.steps| <= 2
      && (ScriptAt(scripts, k).challengeToken.Some? && config.zoneId in s.zones ==>
            r.end.error == ChallengeCancelled && |r.steps| == 2)
  {
  }
}
