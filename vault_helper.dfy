/** `VaultHelper`: the certificate name derived from a domain, the import of
    an issued certificate, and the lookup of the current certificate's expiry. */
module VaultHelper {
  import opened Wrappers
  import opened Acme
  import opened Configs
  import opened KeyVault
  import opened CSharpStrings

  // =====================================================================
  // Certificate names

  /** `GetCertName(domain)`: '*' becomes "start", then '.' becomes '-', then "-lets" is appended. */
  function GetCertName(domain: string): string
  {
    Replace(Replace(domain, '*', "start"), '.', "-") + "-lets"
  }

  /** The name has no '.' and no '*', ends with "-lets", and each '*' of the
      domain adds four characters. */
  lemma CertNameShape(domain: string)
    ensures var name := GetCertName(domain);
      && '.' !in name && '*' !in name
      && |name| == |domain| + 4 * Count(domain, '*') + 5
      && name[|name| - 5..] == "-lets"
  {
    var starless := Replace(domain, '*', "start");
    ReplaceRemoves(domain, '*', "start");
    ReplaceKeepsAbsent(starless, '.', "-", '*');
    ReplaceRemoves(starless, '.', "-");
    ReplaceLength(domain, '*', "start");
    ReplaceLength(starless, '.', "-");
  }

  /** A wildcard domain `*.host` is stored as "start-", then the host with
      '-' for '.', then "-lets" (`*.example.com` as `start-example-com-lets`). */
  lemma WildcardCertName(host: string)
    requires '*' !in host
    ensures GetCertName("*." + host) == "start-" + Replace(host, '.', "-") + "-lets"
  {
    WildcardStarReplaced(host);
    WildcardDotReplaced(host);
  }

  lemma WildcardStarReplaced(host: string)
    requires '*' !in host
    ensures Replace("*." + host, '*', "start") == "start." + host
  {
    ReplaceConcat("*.", host, '*', "start");
    ReplaceAbsent(host, '*', "start");
    assert Replace("*.", '*', "start") == "start.";
  }

  lemma WildcardDotReplaced(host: string)
    ensures Replace("start." + host, '.', "-") == "start-" + Replace(host, '.', "-")
  {
    ReplaceConcat("start.", host, '.', "-");
    assert Replace("start.", '.', "-") == "start-";
  }

  /** Characters a Key Vault object name may hold. */
  predicate IsNameChar(c: char)
  {
    IsAsciiLetterOrDigit(c) || c == '-'
  }

  /** Characters a host name or a wildcard pattern may hold. */
  predicate IsDomainChar(c: char)
  {
    IsNameChar(c) || c == '.' || c == '*'
  }

  /** Every character of `s` may appear in a Key Vault object name. */
  predicate AllNameChars(s: string)
  {
    forall i :: 0 <= i < |s| ==> IsNameChar(s[i])
  }

  lemma {:induction false} ReplaceIntoNameChars(s: string, c: char, t: string, other: char)
    requires forall i :: 0 <= i < |s| ==> s[i] == c || s[i] == other || IsNameChar(s[i])
    requires AllNameChars(t)
    ensures forall i :: 0 <= i < |Replace(s, c, t)| ==> Replace(s, c, t)[i] == other || IsNameChar(Replace(s, c, t)[i])
    decreases |s|
  {
    if s != [] {
      ReplaceIntoNameChars(s[1..], c, t, other);
      var head := if s[0] == c then t else [s[0]];
      var rest := Replace(s[1..], c, t);
      var r := Replace(s, c, t);
      assert r == head + rest;
      forall i | 0 <= i < |r| ensures r[i] == other || IsNameChar(r[i]) {
        if i >= |head| {
          assert r[i] == rest[i - |head|];
          assert rest[i - |head|] == other || IsNameChar(rest[i - |head|]);
        } else if s[0] == c {
          assert r[i] == t[i];
          assert IsNameChar(t[i]);
        } else {
          assert r[i] == s[0];
          assert s[0] == c || s[0] == other || IsNameChar(s[0]);
        }
      }
    }
  }

  lemma AllNameCharsConcat(a: string, b: string)
    requires AllNameChars(a) && AllNameChars(b)
    ensures AllNameChars(a + b)
  {
    forall i | 0 <= i < |a + b| ensures IsNameChar((a + b)[i]) {
      if i >= |a| {
        assert (a + b)[i] == b[i - |a|];
      }
    }
  }

  lemma ReplacementsAreNameChars()
    ensures AllNameChars("start") && AllNameChars("-") && AllNameChars("-lets")
  {
    var start, dash, lets := "start", "-", "-lets";
    assert start == ['s', 't', 'a', 'r', 't'];
    assert lets == ['-', 'l', 'e', 't', 's'];
    assert dash == ['-'];
  }

  lemma ObjectNameOfNameChars(name: string)
    requires AllNameChars(name) && 1 <= |name| <= 127
    ensures IsObjectName(name)
  {
  }

  /** Rewriting '*' and '.' leaves only name characters. */
  lemma RewrittenDomainNameChars(domain: string)
    requires forall i :: 0 <= i < |domain| ==> IsDomainChar(domain[i])
    ensures AllNameChars(Replace(Replace(domain, '*', "start"), '.', "-"))
  {
    ReplacementsAreNameChars();
    var starless := Replace(domain, '*', "start");
    assert forall i :: 0 <= i < |domain| ==> domain[i] == '*' || domain[i] == '.' || IsNameChar(domain[i]);
    ReplaceIntoNameChars(domain, '*', "start", '.');
    ReplaceIntoNameChars(starless, '.', "-", '.');
    var body := Replace(starless, '.', "-");
    ReplaceRemoves(starless, '.', "-");
    forall i | 0 <= i < |body| ensures IsNameChar(body[i]) {
      assert body[i] in body;
    }
  }

  /** For a domain made of host-name characters and '*', the derived name is
      one Key Vault accepts as long as it fits in 127 characters. */
  lemma CertNameIsObjectName(domain: string)
    requires forall i :: 0 <= i < |domain| ==> IsDomainChar(domain[i])
    requires |domain| + 4 * Count(domain, '*') + 5 <= 127
    ensures IsObjectName(GetCertName(domain))
  {
    RewrittenDomainNameChars(domain);
    ReplacementsAreNameChars();
    AllNameCharsConcat(Replace(Replace(domain, '*', "start"), '.', "-"), "-lets");
    CertNameShape(domain);
    ObjectNameOfNameChars(GetCertName(domain));
  }

  // =====================================================================
  // Import

  const IssuerTag := "issuer"
  const ExpireAtTag := "expireAt"
  const Issuer := "LetsEncrypt"

  /** The tags of every import: the issuer, and the stated expiry (the
      caller's "now + 3 months - 1 day", in round-trip format). */
  function LetsEncryptTags(expireAt: string): map<string, string>
  {
    map[IssuerTag := Issuer, ExpireAtTag := expireAt]
  }

  /** `AddCert(domain, certBytes, token)`: imports the PFX under
      `GetCertName(domain)`, enabled, opened with the Cloudflare token as
      password, with exactly the Let's Encrypt tags. The import observes the
      token once, at observation `obs`; a refused import propagates. */
  method AddCert(
    client: CertificateClient, config: CertManagerConfig, domain: string, certBytes: Pfx,
    expireAt: string, token: Cancellation, obs: nat)
    returns (r: Result<CertificateVersion, ImportError>)
    modifies client
    ensures var outcome := Import(old(client.certificates), GetCertName(domain), certBytes, true,
                                  config.cfToken, LetsEncryptTags(expireAt), IsRequested(token, obs));
      && (outcome.Success? ==> r.Success? && client.certificates == outcome.value)
      && (outcome.Failure? ==> r == Failure(outcome.error) && client.certificates == old(client.certificates))
  {
    r := client.ImportCertificateAsync(GetCertName(domain), certBytes, true, config.cfToken,
                                       LetsEncryptTags(expireAt), IsRequested(token, obs));
  }

  // =====================================================================
  // Expiration lookup

  /** The expiry one version reports: `ExpiresOn` when set, otherwise its
      `expireAt` tag parsed by `parse` (`DateTimeOffset.Parse`); `None` when
      the tag is missing or does not parse (both throw and are caught). */
  function ExpirationOf(v: CertificateVersion, parse: string -> Option<int>): Option<int>
  {
    if v.expiresOn.Some? then v.expiresOn
    else if ExpireAtTag in v.tags then parse(v.tags[ExpireAtTag])
    else None
  }

  /** The expiry of the first listed version of the certificate `name`;
      `None` when the vault lists no version (or does not know the name). */
  function CurrentExpiration(certificates: map<string, seq<CertificateVersion>>, name: string,
                             parse: string -> Option<int>): Option<int>
  {
    var versions := VersionsOf(certificates, name);
    if versions == [] then None else ExpirationOf(versions[0], parse)
  }

  /** Index of the first non-empty page (`|pages|` when all are empty). */
  function FirstNonEmpty(pages: seq<seq<CertificateVersion>>): (j: nat)
    ensures j <= |pages|
    ensures forall k :: 0 <= k < j ==> pages[k] == []
    ensures j < |pages| ==> pages[j] != []
    decreases |pages|
  {
    if pages == [] || pages[0] != [] then 0 else 1 + FirstNonEmpty(pages[1..])
  }

  /** The first listed version is the first element of the first non-empty page. */
  lemma {:induction false} FirstOfPages(pages: seq<seq<CertificateVersion>>)
    ensures FirstNonEmpty(pages) < |pages| <==> Concat(pages) != []
    ensures FirstNonEmpty(pages) < |pages| ==> Concat(pages)[0] == pages[FirstNonEmpty(pages)][0]
    decreases |pages|
  {
    if pages != [] && pages[0] == [] {
      FirstOfPages(pages[1..]);
      assert Concat(pages) == Concat(pages[1..]);
    }
  }

  /** `GetCurrentCertExpiration(domain, token)`. The versions of
      `GetCertName(domain)` arrive in `pages`; fetching page `i` observes the
      token at observation `obs + i`, and a cancelled fetch throws and is
      caught. The first version found decides. */
  method GetCurrentCertExpiration(
    client: CertificateClient, domain: string, pages: seq<seq<CertificateVersion>>,
    parse: string -> Option<int>, token: Cancellation, obs: nat)
    returns (expiration: Option<int>)
    requires Concat(pages) == VersionsOf(client.certificates, GetCertName(domain))
    ensures expiration ==
      if IsRequested(token, obs + FirstNonEmpty(pages)) then None
      else CurrentExpiration(client.certificates, GetCertName(domain), parse)
  {
    FirstOfPages(pages);
    var i := 0;
    while i < |pages|
      invariant 0 <= i <= |pages|
      invariant forall k :: 0 <= k < i ==> pages[k] == []
    {
      // await foreach (var page in pages): the fetch observes the token
      if IsRequested(token, obs + i) {
        assert i <= FirstNonEmpty(pages);
        return None;
      }
      var page := pages[i];
      for j := 0 to |page|
        invariant j == 0
      {
        assert FirstNonEmpty(pages) == i;
        return ExpirationOf(page[j], parse);
      }
      i := i + 1;
    }
    return None;
  }

  // =====================================================================
  // Lookup after import

  /** What `AddCert` imports, the lookup finds: the newest version reports
      the certificate's own expiry, and carries exactly the Let's Encrypt tags. */
  lemma AddCertThenLookup(
    certificates: map<string, seq<CertificateVersion>>, config: CertManagerConfig, domain: string,
    certBytes: Pfx, expireAt: string, parse: string -> Option<int>)
    requires IsObjectName(GetCertName(domain)) && config.cfToken == certBytes.password
    ensures var outcome := Import(certificates, GetCertName(domain), certBytes, true,
                                  config.cfToken, LetsEncryptTags(expireAt), false);
      && outcome.Success?
      && CurrentExpiration(outcome.value, GetCertName(domain), parse) == Some(certBytes.chain.notAfter)
      && VersionsOf(outcome.value, GetCertName(domain))[0].tags.Keys == {IssuerTag, ExpireAtTag}
      && VersionsOf(outcome.value, GetCertName(domain))[0].tags[IssuerTag] == Issuer
  {
  }

  /** Only the first listed version matters: older versions never change the answer. */
  lemma LookupReadsNewestOnly(
    c1: map<string, seq<CertificateVersion>>, c2: map<string, seq<CertificateVersion>>,
    name: string, parse: string -> Option<int>)
    requires VersionsOf(c1, name) != [] && VersionsOf(c2, name) != []
    requires VersionsOf(c1, name)[0] == VersionsOf(c2, name)[0]
    ensures CurrentExpiration(c1, name, parse) == CurrentExpiration(c2, name, parse)
  {
  }

  /** The lookup yields nothing exactly when no version is listed, or the
      first one has no `ExpiresOn` and its `expireAt` tag is missing or unparsable. */
  lemma LookupFailsOnlyWhen(certificates: map<string, seq<CertificateVersion>>, name: string,
                            parse: string -> Option<int>)
    ensures var versions := VersionsOf(certificates, name);
      CurrentExpiration(certificates, name, parse).None? <==>
        || versions == []
        || (versions[0].expiresOn.None?
            && (ExpireAtTag !in versions[0].tags || parse(versions[0].tags[ExpireAtTag]).None?))
  {
  }
}
