# Let's Encrypt certificates into Azure Key Vault, with Cloudflare DNS-01

This project models the core of `az-keyvault-letsencrypt`. That is a batch job which:

- loads or registers a Let's Encrypt (ACME) account;
- for each configured domain, orders a certificate;
- publishes the DNS-01 proof as a TXT record in a Cloudflare zone;
- polls the challenge;
- finalizes and downloads the certificate;
- imports the resulting PFX bundle into Azure Key Vault.

It also models the job's helpers:

- `TryDownload`, the bounded download retry;
- `TryChallenge`, the unbounded challenge poll;
- `CfDnsHelper.UpsertRecord`, the TXT upsert;
- `VaultHelper`: the certificate name, the import with its tag set, and the expiry lookup.

The three foreign services are modelled as small abstract state:

- The DNS provider (`Cloudflare.CloudflareDnsClient`) holds, per zone, its records in listing order, with ids drawn from a counter.
- The vault (`KeyVault.CertificateClient`) holds, per certificate name, its versions, newest first.
- The account-key cache (`FileSystem.FileStore`) holds text files by path and a set of directories.

What the ACME library answers is scripted per domain (`CertManager.DomainScript`):

- the challenge token, or none when ordering throws;
- what successive `Validate` calls give: a status, or an exception;
- whether `Finalize` succeeds;
- the outcomes of successive `Download` calls.

The cancellation token is counted in observations (`Acme.Cancellation`). Each `Task.Delay` given the token, each `IsCancellationRequested` test and each Azure call given the token is one observation. A token cancelled at observation `k` is seen by that observation and every later one.

Each imperative operation is a method proved equal to a specification function:

- `TryDownload` = `DownloadFrom`;
- `TryChallenge` = `PollFrom`;
- `UpsertRecord` = `Upsert`;
- `GetCurrentCertExpiration` = `CurrentExpiration`;
- `CreateAcmeContext` = `AccountFor` / `FilesAfter` / `DirectoriesAfter`;
- `CreateCertOrder` = `Run`.

The lemmas state what the source promises about those functions.

Modules, one per file:

- `Wrappers`, `CSharpStrings`, `Acme`, `Configs`, `Cloudflare`, `KeyVault` and `FileSystem`: values and service models.
- `CfDnsHelper`, `Extensions`, `VaultHelper` and `CertManager`: the four core source files.

## Behaviour worth knowing

- **No renewal skip.** `CreateCertOrder` never looks the expiry of a stored certificate up: every domain is renewed on every run.
- **The proof name keeps the wildcard.** The TXT record is `"_acme-challenge." + domain` with the domain as it is, '*' included (`CertManager.ProofNames`).
- **Cancellation during the poll.**
  - Only a cancellation first seen by the test right after `Validate` breaks out of the loop, and the run then goes on to finalize (`Extensions.PollBreaksOnCancel`).
  - A cancellation seen by either `Task.Delay` throws, and the run stops (`ChallengeCancelled`).
- **A throwing `Validate` stops the run.** Nothing catches an exception from `Validate` inside `TryChallenge`, so the domain fails and the run ends, whichever call throws (`ValidateFailed`, `Extensions.PollThrowsAt`, `CertManager.ThrowingValidateStopsRun`).
- **Cancellation during the download throws.** A cancelled delay between download attempts throws at once (`DownloadCancelled`, `Extensions.DownloadCancelsAtSeenDelay`).
- **A null chain stops the run.** `TryDownload` returns null after five failures, `ToPfx` is then called on null, and the run stops (`NullCertificateChain`).
- **Any non-`Pending` status ends the poll.** `Invalid` and `Processing` end it like `Valid`, and the run proceeds to finalize either way (`Extensions.PollIgnoresVerdict`).
- **Failures are not isolated per domain.** Any exception ends the whole run, and later domains are not processed (`CertManager.RunSteps`).
- **Wildcard domains never complete.** `CertManager` names the bundle and the vault entry with `GetCartName`, which keeps `*`. Key Vault refuses such a name, so a wildcard domain's import fails and stops the run (`CertManager.WildcardDomainNeverDone`). `VaultHelper.GetCertName` rewrites `*` to `start`. The two names agree exactly on domains without `*` (`CertManager.CartNameMatchesCertName`).
- **Flat configuration.** The certificate manager reads one zone, one contact email and one domain list.

## Model

| member | source | states |
|---|---|---|
| Cloudflare.FindByNameExact | CloudFlare.Dns/Drunk.Cf.Dns/CloudflareDnsClient.cs:59-60 | the records found under a name are exactly the zone's records with that name, none invented |
| Cloudflare.WithUpdatedAt | CloudFlare.Dns/Drunk.Cf.Dns/CloudflareDnsClient.cs:65-67 | a PATCH gives the record with that id the new body, keeping its id and place; every other record is untouched |
| Cloudflare.CloudflareDnsClient.FindByNameAsync | CloudFlare.Dns/Drunk.Cf.Dns/CloudflareDnsClient.cs:59-60 | an unknown zone fails with `ZoneNotFound`; otherwise the result lists exactly the zone's records with that name |
| Cloudflare.CloudflareDnsClient.UpdateAsync | CloudFlare.Dns/Drunk.Cf.Dns/CloudflareDnsClient.cs:65-67 | unknown zone or id fails and changes nothing; otherwise only that record is rewritten and the provider invariant (unique ids below the counter) is kept |
| Cloudflare.CloudflareDnsClient.CreateAsync | CloudFlare.Dns/Drunk.Cf.Dns/CloudflareDnsClient.cs:62-63 | an unknown zone fails and changes nothing; otherwise one record is appended under a fresh id |
| CfDnsHelper.UpsertRecord | Drunk.KeuVault.LetsEncrypt/Services/CfDnsHelper.cs:17-28 | an unknown zone fails with nothing changed; otherwise the zone becomes `Upsert`'s result and the result returned is the record written; the provider invariant is kept |
| CfDnsHelper.UpsertUpdatesOrCreates | Drunk.KeuVault.LetsEncrypt/Services/CfDnsHelper.cs:19-27 | the record written is TXT, TTL 120, with the given name and content; with a match, the first match is overwritten under its own id and nothing is created; without one, exactly one record is appended under a fresh id |
| CfDnsHelper.UpsertLeavesOthers | Drunk.KeuVault.LetsEncrypt/Services/CfDnsHelper.cs:20-24 | no record is deleted or moved, and every record with another id is unchanged |
| CfDnsHelper.UpsertWellFormed | Drunk.KeuVault.LetsEncrypt/Services/CfDnsHelper.cs:22-24 | the upsert keeps ids unique and below the provider's counter |
| CfDnsHelper.UpsertSingleRecord | Drunk.KeuVault.LetsEncrypt/Services/CfDnsHelper.cs:20-24 | with at most one record of the name before, exactly one exists after, and it holds the new value |
| CfDnsHelper.UpsertTwice | Drunk.KeuVault.LetsEncrypt/Services/CfDnsHelper.cs:17-28 | a second upsert of the same name rewrites the record of the first, creating nothing |
| CfDnsHelper.UpsertKeepsDuplicates | Drunk.KeuVault.LetsEncrypt/Services/CfDnsHelper.cs:20-23 | with two or more records of the name, only the first is rewritten and the later ones stay as they were |
| Extensions.DownloadBounds | Drunk.KeuVault.LetsEncrypt/Services/Extensions.cs:21-40 | at most five `Download` calls; one delay per failed call, so delays equal failures |
| Extensions.TryDownload | Drunk.KeuVault.LetsEncrypt/Services/Extensions.cs:18-41 | the do-while loop computes `DownloadFrom` from zero failures, making between one and five `Download` calls |
| Extensions.DownloadLastCallDecides | Drunk.KeuVault.LetsEncrypt/Services/Extensions.cs:28-38 | a chain is returned exactly when the last call succeeded, and it is that call's chain; each delay is one token observation |
| Extensions.DownloadRetriesOnlyFailures | Drunk.KeuVault.LetsEncrypt/Services/Extensions.cs:28-37 | every call before the last one threw |
| Extensions.DownloadReturnsFirstSuccess | Drunk.KeuVault.LetsEncrypt/Services/Extensions.cs:28 | the first successful call within five is returned at once, with no further attempts, if no earlier delay saw cancellation |
| Extensions.DownloadGivesUp | Drunk.KeuVault.LetsEncrypt/Services/Extensions.cs:30-40 | null is returned exactly when five calls in a row threw and no delay saw cancellation; then five calls and five delays were made |
| Extensions.DownloadGaveUpOnlyAfterFive | Drunk.KeuVault.LetsEncrypt/Services/Extensions.cs:30-40 | giving up implies that every remaining call threw and that the last delay did not see cancellation |
| Extensions.DownloadCancelledByDelay | Drunk.KeuVault.LetsEncrypt/Services/Extensions.cs:30-33 | a cancelled run ends in a delay after a failed call, and that delay is the first to see the token cancelled |
| Extensions.DownloadCancelsAtSeenDelay | Drunk.KeuVault.LetsEncrypt/Services/Extensions.cs:30-33 | conversely, when the delay after the n-th failed call is the first to see the token cancelled, the run ends cancelled right there, after n + 1 calls and no further one |
| Extensions.PollOutcome | Drunk.KeuVault.LetsEncrypt/Services/Extensions.cs:52-62 | every validation but the last returned `Pending`; a settled poll's last one returned another status; a throwing validation is the last one; a break happens right after a validation whose test saw cancellation; a thrown delay saw it |
| Extensions.TryChallenge | Drunk.KeuVault.LetsEncrypt/Services/Extensions.cs:49-65 | the do-while loop with its break computes `PollFrom` |
| Extensions.PollValidatesAtLeastOnce | Drunk.KeuVault.LetsEncrypt/Services/Extensions.cs:52-57 | `Validate` is called at least once unless the first delay throws |
| Extensions.PollStopsAtFirstDecision | Drunk.KeuVault.LetsEncrypt/Services/Extensions.cs:57-62 | without cancellation, the loop stops right after the first validation that does not return `Pending`: settled when it returned a status, with the exception when it threw; three token observations per iteration |
| Extensions.PollBreaksOnCancel | Drunk.KeuVault.LetsEncrypt/Services/Extensions.cs:55-58 | when the test after the n-th validation is the first to see the token cancelled, the loop breaks right there, after n + 1 validations |
| Extensions.PollThrowsAt | Drunk.KeuVault.LetsEncrypt/Services/Extensions.cs:53-62 | when the n-th `Validate` throws after n `Pending` ones and no observation before it saw the token cancelled, the loop ends with that exception after n + 1 calls |
| Extensions.PollNeverGivesUp | Drunk.KeuVault.LetsEncrypt/Services/Extensions.cs:52-62 | while validations report `Pending` and nobody cancels, any number of iterations leaves the loop still polling: there is no bound |
| Extensions.PollIgnoresVerdict | Drunk.KeuVault.LetsEncrypt/Services/Extensions.cs:49-65 | `Valid`, `Invalid` and `Processing` end the loop identically; the run depends only on which validations threw and which returned `Pending` |
| KeyVault.ImportOutcome | Drunk.KeuVault.LetsEncrypt/Services/VaultHelper.cs:35-45 | an import succeeds exactly when the token is not cancelled, the name is a Key Vault object name and the password opens the PFX; it then prepends one version under that name and leaves other names alone |
| KeyVault.CertificateClient.ImportCertificateAsync | Drunk.KeuVault.LetsEncrypt/Services/CertManager.cs:125-132 | the vault becomes `Import`'s result, or is unchanged when the import is refused and the error propagates |
| VaultHelper.GetCertName | Drunk.KeuVault.LetsEncrypt/Services/VaultHelper.cs:24 | '*' becomes "start", then '.' becomes '-', then "-lets" is appended; what the result looks like is stated by `CertNameShape`, `WildcardCertName` and `CertNameIsObjectName` |
| VaultHelper.CertNameShape | Drunk.KeuVault.LetsEncrypt/Services/VaultHelper.cs:24 | the name has no '.' and no '*', ends with "-lets", and has length \|d\| + 4·count(d, '*') + 5 |
| VaultHelper.WildcardCertName | Drunk.KeuVault.LetsEncrypt/Services/VaultHelper.cs:24 | `*.host` is named "start-" + host with '-' for '.' + "-lets" (`*.example.com` gives `start-example-com-lets`) |
| VaultHelper.CertNameIsObjectName | Drunk.KeuVault.LetsEncrypt/Services/VaultHelper.cs:24 | for a host name (possibly with '*'), the derived name is one Key Vault accepts whenever it fits in 127 characters |
| VaultHelper.AddCert | Drunk.KeuVault.LetsEncrypt/Services/VaultHelper.cs:33-48 | imports under `GetCertName(domain)`, enabled, with the Cloudflare token as password and exactly the tags `issuer` = "LetsEncrypt" and `expireAt`; a refusal propagates and changes nothing |
| VaultHelper.FirstNonEmpty | Drunk.KeuVault.LetsEncrypt/Services/VaultHelper.cs:63-64 | the index of the first page that lists a version; every earlier page is empty |
| VaultHelper.FirstOfPages | Drunk.KeuVault.LetsEncrypt/Services/VaultHelper.cs:63-65 | the first version met while walking the pages is the newest version listed |
| VaultHelper.GetCurrentCertExpiration | Drunk.KeuVault.LetsEncrypt/Services/VaultHelper.cs:56-73 | the nested loop returns the first listed version's expiry (`ExpiresOn`, else the parsed `expireAt` tag); null when nothing is listed, the tag is missing or unparsable, or a page fetch sees the token cancelled |
| VaultHelper.AddCertThenLookup | Drunk.KeuVault.LetsEncrypt/Services/VaultHelper.cs:35-45 | after `AddCert`, the lookup finds the certificate's own expiry, and the newest version carries exactly the two tags |
| VaultHelper.LookupReadsNewestOnly | Drunk.KeuVault.LetsEncrypt/Services/VaultHelper.cs:63-65 | only the first listed version matters |
| VaultHelper.LookupFailsOnlyWhen | Drunk.KeuVault.LetsEncrypt/Services/VaultHelper.cs:65-72 | the lookup yields null exactly when no version is listed, or the first has no `ExpiresOn` and a missing or unparsable `expireAt` tag |
| FileSystem.DirectoryName | Drunk.KeuVault.LetsEncrypt/Services/CertManager.cs:47 | the directory part is the path before its last '/', or empty for a bare file name |
| FileSystem.DirectoryOfFile | Drunk.KeuVault.LetsEncrypt/Services/CertManager.cs:47 | the directory of `dir/name` is `dir` when the name has no '/' |
| FileSystem.FileStore.CreateDirectory | Drunk.KeuVault.LetsEncrypt/Services/CertManager.cs:48-49 | adds the directory and changes no file |
| FileSystem.FileStore.WriteAllText | Drunk.KeuVault.LetsEncrypt/Services/CertManager.cs:50 | writes, creating or overwriting the file, exactly when its directory exists; otherwise changes nothing |
| CertManager.AccountKeyPath | Drunk.KeuVault.LetsEncrypt/Services/CertManager.cs:26 | the key file path built from the environment and the email with '@' and '.' replaced by nothing; what it looks like is stated by the four lemmas below |
| CertManager.AccountKeyPathShape | Drunk.KeuVault.LetsEncrypt/Services/CertManager.cs:26 | the key file is "Data/" + ("prd" or "staging") + "-" + the email without '@' and '.' + ".pem" |
| CertManager.AccountKeyDirectory | Drunk.KeuVault.LetsEncrypt/Services/CertManager.cs:47-49 | the key file's directory is `Data` unless the email holds a '/' |
| CertManager.AccountKeyFileShared | Drunk.KeuVault.LetsEncrypt/Services/CertManager.cs:26 | two emails share a key file exactly when they agree once '@' and '.' are dropped |
| CertManager.AccountKeyPerEnvironment | Drunk.KeuVault.LetsEncrypt/Services/CertManager.cs:26 | production and staging never share a key file |
| CertManager.CreateAcmeContext | Drunk.KeuVault.LetsEncrypt/Services/CertManager.cs:24-53 | a cached key with non-whitespace content is reused and no file or directory changes; otherwise the account is registered and its key written to the key path, after creating the key's directory if missing, and nothing else is created; a failed registration propagates and changes nothing |
| CertManager.SecondRunReusesAccount | Drunk.KeuVault.LetsEncrypt/Services/CertManager.cs:29-52 | after a run registered an account, the next run with the same email and environment reuses its key and registers nothing |
| CertManager.AccountsPerEnvironment | Drunk.KeuVault.LetsEncrypt/Services/CertManager.cs:26-52 | registering in one environment does not change which account the other environment gets |
| CertManager.ProofName | Drunk.KeuVault.LetsEncrypt/Services/CertManager.cs:85 | the TXT record name is "_acme-challenge." followed by the domain as it is; `ProofNames` states what follows from that |
| CertManager.ProofNames | Drunk.KeuVault.LetsEncrypt/Services/CertManager.cs:85 | distinct domains have distinct proof names, and a wildcard's '*' is kept in its proof name |
| CertManager.CreateOrder | Drunk.KeuVault.LetsEncrypt/Services/CertManager.cs:77-90 | the order is for exactly the one domain; the TXT name is "_acme-challenge." followed by the domain; the value is the account key's digest of the first authorization's challenge token; a failing ACME call fails the order |
| CertManager.CreateDnsRecord | Drunk.KeuVault.LetsEncrypt/Services/CertManager.cs:57-69 | the same upsert as `UpsertRecord`, in the configured zone |
| CertManager.GetCartName | Drunk.KeuVault.LetsEncrypt/Services/CertManager.cs:121 | '.' becomes '-' and "-lets" is appended, '*' is left alone; what the result looks like is stated by the three lemmas below |
| CertManager.CartNameShape | Drunk.KeuVault.LetsEncrypt/Services/CertManager.cs:121 | the name has no '.', is the domain with '-' for '.' followed by "-lets", and keeps every '*' |
| CertManager.CartNameMatchesCertName | Drunk.KeuVault.LetsEncrypt/Services/CertManager.cs:121 | `GetCartName` and `VaultHelper.GetCertName` agree exactly on domains without '*' |
| CertManager.WildcardCartNameRejected | Drunk.KeuVault.LetsEncrypt/Services/CertManager.cs:121-126 | a wildcard domain's name is not a Key Vault object name |
| CertManager.IssueCert | Drunk.KeuVault.LetsEncrypt/Services/CertManager.cs:92-119 | computes `IssueOutcome`: a failed finalize propagates; otherwise the downloaded chain is bundled, or null stops the run, or a cancelled delay does |
| CertManager.IssuedBundle | Drunk.KeuVault.LetsEncrypt/Services/CertManager.cs:96-115 | an issued bundle holds the first chain downloaded within five attempts, named `GetCartName(domain)` and locked with the Cloudflare token; a null chain means five downloads failed |
| CertManager.AddCertToVault | Drunk.KeuVault.LetsEncrypt/Services/CertManager.cs:123-135 | imports under `GetCartName(domain)`, enabled, with the Cloudflare token as password and exactly the Let's Encrypt tags; a refusal propagates and changes nothing |
| CertManager.FinishDomain | Drunk.KeuVault.LetsEncrypt/Services/CertManager.cs:148-150 | challenge, issue and import, in that order, match `AfterDns` |
| CertManager.ProcessDomain | Drunk.KeuVault.LetsEncrypt/Services/CertManager.cs:144-156 | one pass of the loop body matches `RunDomain` on the services and keeps the provider invariant |
| CertManager.ProcessDomains | Drunk.KeuVault.LetsEncrypt/Services/CertManager.cs:141-157 | the `foreach` over the configured domains computes `RunFrom` from the first domain, leaving the DNS provider and the vault as it says and keeping the provider invariant |
| CertManager.CreateCertOrder | Drunk.KeuVault.LetsEncrypt/Services/CertManager.cs:137-158 | the whole run computes `Run`: one account, then the domains in order, stopping at the first failure; the DNS provider, the vault, the key files and the directories end as `Run`, `FilesAfter` and `DirectoriesAfter` say |
| CertManager.DomainSteps | Drunk.KeuVault.LetsEncrypt/Services/CertManager.cs:144-156 | one domain's steps are a prefix of order, DNS write, challenge, issue and import, each as the source fixes it; all five happen exactly when the domain is done; nothing is deleted; the imported version is then the newest under its name |
| CertManager.RunSteps | Drunk.KeuVault.LetsEncrypt/Services/CertManager.cs:139-157 | domains run in configured order, each step concerning the domain whose turn it is and made as the source fixes it; no later domain has a step once one fails or stalls: the run makes fewer than 5·m steps, m being the number of domains up to and including that one |
| CertManager.RunStepCounts | Drunk.KeuVault.LetsEncrypt/Services/CertManager.cs:139-157 | a completed run made five steps per domain; the first failing or stalled domain ends the run after fewer than five of its steps |
| CertManager.RunKeeps | Drunk.KeuVault.LetsEncrypt/Services/CertManager.cs:152-156 | a run deletes no DNS record and no certificate version (the cleanup is disabled) |
| CertManager.WildcardDomainNeverDone | Drunk.KeuVault.LetsEncrypt/Services/CertManager.cs:121-132 | a wildcard domain never completes, because its import is refused |
| CertManager.WildcardRunNeverCompletes | Drunk.KeuVault.LetsEncrypt/Services/CertManager.cs:141-157 | a run with a wildcard domain still to process never completes |
| CertManager.ImportedCertIsFound | Drunk.KeuVault.LetsEncrypt/Services/VaultHelper.cs:56-65 | for a domain without '*', `GetCurrentCertExpiration` finds the certificate that the run imported, with its expiry |
| CertManager.ThrowingValidateStopsRun | Drunk.KeuVault.LetsEncrypt/Services/CertManager.cs:144-156 | a `Validate` call that throws is caught nowhere: when the n-th call throws after n `Pending` ones, with the token not yet seen cancelled, its domain fails after the order and the DNS write, and the run ends there |
| CertManager.CancelledRunStops | Drunk.KeuVault.LetsEncrypt/Services/CertManager.cs:146-148 | with the token already cancelled, the next domain gets at most its order and DNS write, and the run fails there |

## Left out

- ACME cryptography and wire protocol (`KeyFactory.NewKey`, `AccountKey.DnsTxt`, `ToPem`, `ToPfx`, `Build`, `Finalize`, `NewAccount`) are outcomes or parameters:
  - the digest is the function `dnsTxt`;
  - the new account's key is `registration`;
  - finalize is a boolean;
  - certificates and bundles are opaque values.
- `KeyFactory.FromPem` is not modelled: a cached key with non-whitespace but malformed content would throw in the source, while the model takes any such text as the key.
- `CertManager.CreateOrder`: the three ACME calls that can throw are collapsed into one failure, `OrderFailed`.
- `DeleteDnsRecord` (`CertManager.cs:71-75`) is never called, because the cleanup is commented out. The provider's `DeleteAsync` and `ListAsync` are not modelled.
- Provider failures other than an unknown zone or record id are not modelled. These include HTTP and authentication errors and a response whose `Result` is null.
- Record ids are natural numbers from a counter. The provider's ids are opaque strings.
- Key Vault client construction and credentials (`CertManager.cs:15-22`, `VaultHelper.cs:12-16`) are left out. So are its failures other than cancellation, an invalid name and a wrong password.
- The `expireAt` tag ("now + 3 months − 1 day" in round-trip format) is an opaque string supplied by the caller. `DateTimeOffset.Parse` is the parameter `parse`.
- Delay durations and real time are left out: only token observations are counted.
- Console logging is left out.
- Extensions.TryChallenge: the source's loop has no bound. The model watches it for at most `fuel` iterations, and a run still polling when the fuel runs out ends as `Stuck`.
- FileSystem.FileStore.CreateDirectory: adds only the named directory, not its missing ancestors. The write then succeeds whenever that directory exists.
- Configuration loading, dependency injection, the zone-list configuration shape and `Program.cs` are left out. The flat configuration's `[Required]` annotations are not enforced.
- `VaultHelper.GetCurrentCertExpiration` has no caller in the job. The model states its result, and relates it to a run's import in `CertManager.ImportedCertIsFound`.
- Concurrency: the job is sequential, and each `await` is one step.
