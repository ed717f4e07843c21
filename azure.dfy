/**
 * The Entra ID side of the setup: the directory is an abstract state (gallery templates,
 * applications, service principals and the tenant's organizations) held by an
 * `AzureService` object whose methods update it the way the Graph requests do.
 */
module Azure {
  import opened Common
  import EnvUrls

  // ---------------------------------------------------------------- directory state

  datatype AppTemplate = AppTemplate(id: string, displayName: string)

  datatype KeyCredential = KeyCredential(usage: string, credType: string, key: string)

  /** The SAML patch sent to a service principal. */
  datatype SamlSettings = SamlSettings(
    preferredSingleSignOnMode: string,
    replyUrls: seq<string>,
    identifierUris: seq<string>,
    logoutUrl: string)

  datatype ServicePrincipal = ServicePrincipal(
    appId: nat,
    displayName: string,
    keyCredentials: Option<seq<KeyCredential>>,
    homepage: Option<string>,
    notes: Option<string>,
    saml: Option<SamlSettings>)

  /**
   * `fault` is the message every Graph request fails with when the directory cannot be
   * reached; `notFound` is the message Graph gives for an unknown object id. Ids are
   * handed out from `nextId`.
   */
  datatype GraphState = GraphState(
    templates: seq<AppTemplate>,
    applications: map<nat, string>,
    principals: map<nat, ServicePrincipal>,
    organizations: seq<string>,
    fault: Option<string>,
    notFound: string,
    nextId: nat)

  /** Every id in use is below `nextId`, so the next one is fresh. */
  predicate IdsBelowNext(g: GraphState)
  {
    (forall k :: k in g.applications ==> k < g.nextId) &&
    (forall k :: k in g.principals ==> k < g.nextId)
  }

  datatype EntraApp = EntraApp(id: nat, ssoUrl: string, entityId: string)

  const GalleryName := "GitHub Enterprise Cloud - Enterprise Account"
  const CreatePrefix := "Failed to create Enterprise App: "
  const ConfigurePrefix := "Failed to configure SAML settings: "
  const DownloadPrefix := "Failed to download certificate: "
  const NotInGallery := "GitHub Enterprise application not found in gallery"
  const CertificateNotFound := "SAML certificate not found"
  /** What V8 throws when `organization.value[0].id` is read from an empty list. */
  const NoOrganization := "Cannot read properties of undefined (reading 'id')"

  // ---------------------------------------------------------------- pure parts

  predicate IsGalleryApp(t: AppTemplate) { t.displayName == GalleryName }

  /** `findGitHubGalleryApp`: the first template with the exact gallery name. */
  function FindGitHubGalleryApp(templates: seq<AppTemplate>): (r: Option<AppTemplate>)
    ensures r.None? <==> forall i :: 0 <= i < |templates| ==> templates[i].displayName != GalleryName
    ensures r.Some? ==> r.value.displayName == GalleryName && r.value in templates
    ensures r.Some? ==> exists i :: 0 <= i < |templates| && templates[i] == r.value &&
                                    forall j :: 0 <= j < i ==> templates[j].displayName != GalleryName
  {
    FirstWhere(templates, IsGalleryApp)
  }

  predicate IsSigningCert(c: KeyCredential) { c.usage == "Sign" && c.credType == "AsymmetricX509Cert" }

  /** `keyCredentials?.find(...)`: the first signing certificate, if there are credentials at all. */
  function FindSigningCredential(creds: Option<seq<KeyCredential>>): (r: Option<KeyCredential>)
    ensures creds.None? ==> r.None?
    ensures creds.Some? && r.None? ==> forall i :: 0 <= i < |creds.value| ==> !IsSigningCert(creds.value[i])
    ensures r.Some? ==> creds.Some? && IsSigningCert(r.value) &&
                        exists i :: 0 <= i < |creds.value| && creds.value[i] == r.value &&
                                    forall j :: 0 <= j < i ==> !IsSigningCert(creds.value[j])
  {
    match creds
    case None => None
    case Some(cs) => FirstWhere(cs, IsSigningCert)
  }

  const PemHeader := "-----BEGIN CERTIFICATE-----\n"
  const PemFooter := "\n-----END CERTIFICATE-----"

  /** The PEM text: the key between the header and footer lines, not re-wrapped. */
  function Pem(key: string): (pem: string)
    ensures StartsWith(pem, PemHeader) && EndsWith(pem, PemFooter)
    ensures |pem| == |PemHeader| + |key| + |PemFooter|
  {
    PemHeader + key + PemFooter
  }

  /** Header and footer stripped off again. */
  function Dearmor(pem: string): (r: Option<string>)
  {
    if |PemHeader| + |PemFooter| <= |pem| && StartsWith(pem, PemHeader) && EndsWith(pem, PemFooter)
    then Some(pem[|PemHeader|..|pem| - |PemFooter|])
    else None
  }

  lemma DearmorPem(key: string)
    ensures Dearmor(Pem(key)) == Some(key)
  {
    var pem := Pem(key);
    assert pem[|PemHeader|..|pem| - |PemFooter|] == key;
  }

  lemma PemDearmor(pem: string, key: string)
    requires Dearmor(pem) == Some(key)
    ensures Pem(key) == pem
  {
    assert pem == pem[..|PemHeader|] + pem[|PemHeader|..|pem| - |PemFooter|] + pem[|pem| - |PemFooter|..];
  }

  /** The `configureSAMLSettings` payload: always on github.com, whatever the environment. */
  function SamlSettingsPayload(enterpriseName: string): (s: SamlSettings)
    ensures s.preferredSingleSignOnMode == "saml"
    ensures |s.replyUrls| == 2 && |s.identifierUris| == 1
    ensures forall u :: u in s.replyUrls + s.identifierUris + [s.logoutUrl] ==>
              StartsWith(u, EnvUrls.DotComUrls.web + "/enterprises/" + enterpriseName)
  {
    var base := EnvUrls.DotComUrls.web + "/enterprises/" + enterpriseName;
    assert (base + "/saml/consume")[..|base|] == base;
    assert (base + "/saml/acs")[..|base|] == base;
    assert (base + "/saml/sls")[..|base|] == base;
    SamlSettings("saml", [base + "/saml/consume", base + "/saml/acs"], [base], base + "/saml/sls")
  }

  /**
   * On github.com the payload agrees with the SAML application configuration: its reply URLs are
   * the configured `/saml/consume` URL and the Entity ID's `/saml/acs`, and its identifier and logout URL are the configured ones.
   */
  lemma SamlPayloadMatchesDotCom(enterpriseName: string)
    ensures var s := SamlSettingsPayload(enterpriseName);
            var cfg := EnvUrls.GetAppConfig(None, enterpriseName, "saml");
            s.replyUrls == [cfg.replyUrl, cfg.entityId + "/saml/acs"] &&
            s.identifierUris == [cfg.entityId] && s.logoutUrl == cfg.logoutUrl
  {
  }

  /** For a ghe.com enterprise the payload's identifier is never the enterprise's Entity ID. */
  lemma SamlPayloadMissesGhe(enterpriseName: string)
    ensures SamlSettingsPayload(enterpriseName).identifierUris[0] !=
            EnvUrls.GetAppConfig(Some("ghe.com"), enterpriseName, "saml").entityId
  {
    var e := enterpriseName;
    var sent := EnvUrls.DotComUrls.web + "/enterprises/" + e;
    var ghe := EnvUrls.Scheme + e + ".ghe.com/enterprises/" + e;
    assert EnvUrls.GetAppConfig(Some("ghe.com"), e, "saml").entityId == ghe;
    if |e| == 2 {
      assert sent[10] == 't' && ghe[10] == '.';
    } else {
      assert |sent| != |ghe|;
    }
  }

  /** `validateEnterpriseApp`'s `startswith(displayName, 'GitHub')` filter. */
  function GitHubPrincipals(g: GraphState): set<nat>
  {
    set k | k in g.principals && StartsWith(g.principals[k].displayName, "GitHub")
  }

  /** `validateEnterpriseApp`: never an error; the message reports the number of matches. */
  function ValidateEnterpriseAppResult(g: GraphState): (r: CheckResult)
    ensures g.fault.Some? ==> r == CheckResult(false, "Error validating enterprise app: " + g.fault.value)
    ensures g.fault.None? ==>
      (r.success <==> exists k :: k in g.principals && StartsWith(g.principals[k].displayName, "GitHub"))
    ensures g.fault.None? && r.success ==>
      r.message == "Found " + NatToString(|GitHubPrincipals(g)|) + " GitHub application(s)"
    ensures g.fault.None? && !r.success ==> r.message == "No GitHub Enterprise applications found"
  {
    if g.fault.Some? then CheckResult(false, "Error validating enterprise app: " + g.fault.value)
    else
      var n := |GitHubPrincipals(g)|;
      if n == 0 then
        assert forall k :: k in g.principals && StartsWith(g.principals[k].displayName, "GitHub") ==>
                           k in GitHubPrincipals(g);
        CheckResult(false, "No GitHub Enterprise applications found")
      else
        var k :| k in GitHubPrincipals(g);
        CheckResult(true, "Found " + NatToString(n) + " GitHub application(s)")
  }

  /** `downloadSAMLCertificate`. */
  function CertificateOf(g: GraphState, appId: nat): (r: Result<string, string>)
    ensures g.fault.Some? ==> r == Err(DownloadPrefix + g.fault.value)
    ensures g.fault.None? && appId !in g.principals ==> r == Err(DownloadPrefix + g.notFound)
    ensures g.fault.None? && appId in g.principals ==>
      match FindSigningCredential(g.principals[appId].keyCredentials)
      case None => r == Err(DownloadPrefix + CertificateNotFound)
      case Some(c) => r == Ok(Pem(c.key))
  {
    if g.fault.Some? then Err(DownloadPrefix + g.fault.value)
    else if appId !in g.principals then Err(DownloadPrefix + g.notFound)
    else
      match FindSigningCredential(g.principals[appId].keyCredentials)
      case None => Err(DownloadPrefix + CertificateNotFound)
      case Some(c) => Ok(Pem(c.key))
  }

  /** A downloaded certificate is the key of the first signing credential, framed as PEM. */
  lemma CertificateIsFirstSigningKey(g: GraphState, appId: nat, pem: string)
    requires CertificateOf(g, appId) == Ok(pem)
    ensures g.fault.None? && appId in g.principals
    ensures var c := FindSigningCredential(g.principals[appId].keyCredentials);
            c.Some? && Dearmor(pem) == Some(c.value.key)
  {
    var c := FindSigningCredential(g.principals[appId].keyCredentials);
    DearmorPem(c.value.key);
  }

  /** `validateSAMLConfig`: a stub that always succeeds. */
  function ValidateSamlConfig(): (r: CheckResult)
    ensures r.success && r.message == "SAML configuration is valid"
  {
    CheckResult(true, "SAML configuration is valid")
  }

  /** `validateCertificate`: a stub that always succeeds. */
  function ValidateCertificate(): (r: CheckResult)
    ensures r.success && r.message == "Certificate is valid"
  {
    CheckResult(true, "Certificate is valid")
  }

  function AppDisplayName(enterpriseName: string): string { "GitHub Enterprise - " + enterpriseName }

  /** The directory after the gallery app is instantiated for an enterprise and its principal patched. */
  function WithGitHubApp(g: GraphState, enterpriseName: string): (h: GraphState)
    ensures h.templates == g.templates && h.organizations == g.organizations
    ensures h.fault == g.fault && h.notFound == g.notFound
    ensures h.nextId == g.nextId + 2
    ensures h.applications == g.applications[g.nextId := AppDisplayName(enterpriseName)]
    ensures h.principals == g.principals[g.nextId + 1 := ServicePrincipal(
              g.nextId, AppDisplayName(enterpriseName), None,
              Some("https://github.com/enterprises/" + enterpriseName),
              Some("SSO configuration for GitHub Enterprise: " + enterpriseName), None)]
  {
    var name := AppDisplayName(enterpriseName);
    var sp := ServicePrincipal(g.nextId, name, None,
                               Some("https://github.com/enterprises/" + enterpriseName),
                               Some("SSO configuration for GitHub Enterprise: " + enterpriseName), None);
    g.(applications := g.applications[g.nextId := name],
       principals := g.principals[g.nextId + 1 := sp],
       nextId := g.nextId + 2)
  }

  /** Creating the app keeps ids fresh and adds exactly one principal, leaving the others as they were. */
  lemma WithGitHubAppFresh(g: GraphState, enterpriseName: string)
    requires IdsBelowNext(g)
    ensures var h := WithGitHubApp(g, enterpriseName);
            IdsBelowNext(h) && g.nextId + 1 !in g.principals && g.nextId !in g.applications &&
            h.principals.Keys == g.principals.Keys + {g.nextId + 1} &&
            forall k :: k in g.principals ==> h.principals[k] == g.principals[k]
  {
  }

  /** Once the app exists, the enterprise-app check of the same directory succeeds. */
  lemma CreatedAppPassesValidation(g: GraphState, enterpriseName: string)
    requires g.fault.None?
    ensures ValidateEnterpriseAppResult(WithGitHubApp(g, enterpriseName)).success
  {
    var h := WithGitHubApp(g, enterpriseName);
    var name := AppDisplayName(enterpriseName);
    assert name[..6] == "GitHub";
    assert StartsWith(h.principals[g.nextId + 1].displayName, "GitHub");
  }

  /** The directory after `configureSAMLSettings` has patched principal `appId`. */
  function WithSamlSettings(g: GraphState, appId: nat, enterpriseName: string): (h: GraphState)
    requires appId in g.principals
    ensures h.principals.Keys == g.principals.Keys
    ensures h.principals[appId] == g.principals[appId].(saml := Some(SamlSettingsPayload(enterpriseName)))
    ensures forall k :: k in g.principals && k != appId ==> h.principals[k] == g.principals[k]
    ensures h == g.(principals := h.principals)
  {
    g.(principals := g.principals[appId := g.principals[appId].(saml := Some(SamlSettingsPayload(enterpriseName)))])
  }

  // ---------------------------------------------------------------- the service

  class AzureService {
    const tenantDomain: string
    var graph: GraphState

    ghost predicate Valid()
      reads this
    {
      IdsBelowNext(graph)
    }

    constructor(tenantDomain: string, graph: GraphState)
      requires IdsBelowNext(graph)
      ensures this.tenantDomain == tenantDomain && this.graph == graph && Valid()
    {
      this.tenantDomain := tenantDomain;
      this.graph := graph;
    }

    /**
     * `createGitHubEnterpriseApp`. A failed gallery lookup creates nothing. After the
     * objects are created the tenant id is read from the first organization; with none,
     * the created objects stay.
     */
    method CreateGitHubEnterpriseApp(enterpriseName: string) returns (r: Result<EntraApp, string>)
      requires Valid()
      modifies this
      ensures Valid()
      ensures old(graph).fault.Some? ==> graph == old(graph) && r == Err(CreatePrefix + old(graph).fault.value)
      ensures old(graph).fault.None? && FindGitHubGalleryApp(old(graph).templates).None? ==>
                graph == old(graph) && r == Err(CreatePrefix + NotInGallery)
      ensures old(graph).fault.None? && FindGitHubGalleryApp(old(graph).templates).Some? ==>
                graph == WithGitHubApp(old(graph), enterpriseName) &&
                r == (if old(graph).organizations == [] then Err(CreatePrefix + NoOrganization)
                      else Ok(EntraApp(old(graph).nextId + 1,
                                       "https://login.microsoftonline.com/" + tenantDomain + "/saml2",
                                       "https://sts.windows.net/" + old(graph).organizations[0] + "/")))
    {
      if graph.fault.Some? {
        return Err(CreatePrefix + graph.fault.value);
      }
      var galleryApp := FindGitHubGalleryApp(graph.templates);
      if galleryApp.None? {
        return Err(CreatePrefix + NotInGallery);
      }
      // instantiate: a new application and its service principal
      var appId := graph.nextId;
      var servicePrincipalId := graph.nextId + 1;
      var name := AppDisplayName(enterpriseName);
      graph := graph.(applications := graph.applications[appId := name],
                      principals := graph.principals[servicePrincipalId := ServicePrincipal(appId, name, None, None, None, None)],
                      nextId := graph.nextId + 2);
      // configureEnterpriseApp
      var sp := graph.principals[servicePrincipalId];
      graph := graph.(principals := graph.principals[servicePrincipalId :=
                       sp.(homepage := Some("https://github.com/enterprises/" + enterpriseName),
                           notes := Some("SSO configuration for GitHub Enterprise: " + enterpriseName))]);
      var ssoUrl := "https://login.microsoftonline.com/" + tenantDomain + "/saml2";
      assert graph == WithGitHubApp(old(graph), enterpriseName);
      // getTenantId
      if graph.organizations == [] {
        return Err(CreatePrefix + NoOrganization);
      }
      return Ok(EntraApp(servicePrincipalId, ssoUrl, "https://sts.windows.net/" + graph.organizations[0] + "/"));
    }

    /** `configureSAMLSettings`: patch the principal with the SAML payload; the claims step sends nothing. */
    method ConfigureSAMLSettings(appId: nat, enterpriseName: string) returns (r: Result<(), string>)
      requires Valid()
      modifies this
      ensures Valid()
      ensures old(graph).fault.Some? ==> graph == old(graph) && r == Err(ConfigurePrefix + old(graph).fault.value)
      ensures old(graph).fault.None? && appId !in old(graph).principals ==>
                graph == old(graph) && r == Err(ConfigurePrefix + old(graph).notFound)
      ensures old(graph).fault.None? && appId in old(graph).principals ==>
                graph == WithSamlSettings(old(graph), appId, enterpriseName) && r == Ok(())
    {
      if graph.fault.Some? {
        return Err(ConfigurePrefix + graph.fault.value);
      }
      if appId !in graph.principals {
        return Err(ConfigurePrefix + graph.notFound);
      }
      var sp := graph.principals[appId];
      graph := graph.(principals := graph.principals[appId := sp.(saml := Some(SamlSettingsPayload(enterpriseName)))]);
      return Ok(());
    }

    method DownloadSAMLCertificate(appId: nat) returns (r: Result<string, string>)
      ensures r == CertificateOf(graph, appId)
    {
      r := CertificateOf(graph, appId);
    }

    method ValidateEnterpriseApp() returns (r: CheckResult)
      ensures r == ValidateEnterpriseAppResult(graph)
    {
      r := ValidateEnterpriseAppResult(graph);
    }
  }
}
