/**
 * Environment-specific GitHub URLs: the web and API hosts of github.com and of a
 * data-residency (ghe.com) enterprise, the SCIM endpoint, and the SAML/OIDC
 * application configuration derived from them.
 */
module EnvUrls {
  import opened Common

  datatype BaseUrls = BaseUrls(web: string, api: string)

  datatype AppConfig = AppConfig(
    displayName: string,
    signOnUrl: string,
    entityId: string,
    replyUrl: string,
    logoutUrl: string,
    githubSamlUrl: string,
    githubTokenUrl: string,
    githubSsoConfigUrl: string)

  const Scheme := "https://"
  const OidcDisplayName := "GitHub Enterprise Managed User (OIDC)"
  /** The new-token page, preset to the SCIM scope and description. */
  const TokenPath := "/settings/tokens/new" + "?scopes=scim:enterprise" + "&description=SCIM%20Token"

  /** The hosts used for every environment other than ghe.com, including an absent one. */
  const DotComUrls := BaseUrls("https://github.com", "https://api.github.com")

  /**
   * `envType` is `None` when the caller passes `undefined`; only the exact string
   * "ghe.com" selects the data-residency hosts.
   */
  function GetBaseUrls(envType: Option<string>, enterprise: string): (r: BaseUrls)
    ensures StartsWith(r.web, Scheme)
    ensures r.api == Scheme + "api." + r.web[|Scheme|..]
    ensures envType == Some("ghe.com") ==> r.web == Scheme + enterprise + ".ghe.com"
    ensures envType != Some("ghe.com") ==> r == DotComUrls
  {
    if envType == Some("ghe.com") then
      BaseUrls(Scheme + enterprise + ".ghe.com", Scheme + "api." + enterprise + ".ghe.com")
    else
      DotComUrls
  }

  function GetScimEndpoint(envType: Option<string>, enterprise: string): (r: string)
  {
    GetBaseUrls(envType, enterprise).api + "/scim/v2/enterprises/" + enterprise
  }

  function GetAppConfig(envType: Option<string>, enterprise: string, ssoType: string): (r: AppConfig)
    ensures r.entityId == GetBaseUrls(envType, enterprise).web + "/enterprises/" + enterprise
    ensures r.signOnUrl == r.entityId + "/sso"
    ensures r.replyUrl == r.entityId + (if ssoType == "oidc" then "/oauth/callback" else "/saml/consume")
    ensures r.logoutUrl == r.entityId + "/saml/sls"
    ensures r.githubSamlUrl == r.entityId + "/settings/saml_provider/edit"
    ensures r.githubSsoConfigUrl == r.entityId + "/settings/single_sign_on_configuration"
    ensures r.githubTokenUrl == GetBaseUrls(envType, enterprise).web + TokenPath
    ensures ssoType == "oidc" ==> r.displayName == OidcDisplayName
    ensures ssoType != "oidc" ==> r.displayName == "GitHub Enterprise SAML SSO - " + enterprise
  {
    var web := GetBaseUrls(envType, enterprise).web;
    var prefix := web + "/enterprises/" + enterprise;
    AppConfig(
      displayName := if ssoType == "oidc" then OidcDisplayName
                     else "GitHub Enterprise SAML SSO - " + enterprise,
      signOnUrl := web + "/enterprises/" + enterprise + "/sso",
      entityId := prefix,
      replyUrl := if ssoType == "oidc" then web + "/enterprises/" + enterprise + "/oauth/callback"
                  else web + "/enterprises/" + enterprise + "/saml/consume",
      logoutUrl := web + "/enterprises/" + enterprise + "/saml/sls",
      githubSamlUrl := web + "/enterprises/" + enterprise + "/settings/saml_provider/edit",
      githubTokenUrl := web + TokenPath,
      githubSsoConfigUrl := web + "/enterprises/" + enterprise + "/settings/single_sign_on_configuration")
  }

  /** Outside ghe.com the hosts do not depend on the enterprise at all. */
  lemma DotComIndependentOfEnterprise(envType: Option<string>, e1: string, e2: string)
    requires envType != Some("ghe.com")
    ensures GetBaseUrls(envType, e1) == GetBaseUrls(envType, e2) == DotComUrls
    ensures GetAppConfig(envType, e1, "saml").githubTokenUrl == GetAppConfig(envType, e2, "oidc").githubTokenUrl
  {
  }

  /**
   * The SCIM endpoint is the API host followed by `/scim/v2` and the entity ID's path:
   * the API host is the web host with `api.` in front of it.
   */
  lemma ScimEndpointMatchesEntityId(envType: Option<string>, enterprise: string, ssoType: string)
    ensures var web := GetBaseUrls(envType, enterprise).web;
            var entityId := GetAppConfig(envType, enterprise, ssoType).entityId;
            StartsWith(entityId, web) &&
            GetScimEndpoint(envType, enterprise) == Scheme + "api." + web[|Scheme|..] + "/scim/v2" + entityId[|web|..]
  {
    var web := GetBaseUrls(envType, enterprise).web;
    var entityId := GetAppConfig(envType, enterprise, ssoType).entityId;
    assert entityId[..|web|] == web;
    assert entityId[|web|..] == "/enterprises/" + enterprise;
  }

  /** The SCIM endpoint has no trailing slash when the enterprise name is non-empty and does not end in `/`. */
  lemma ScimEndpointNoTrailingSlash(envType: Option<string>, enterprise: string)
    ensures EndsWith(GetScimEndpoint(envType, enterprise), "/enterprises/" + enterprise)
    ensures (|enterprise| > 0 && enterprise[|enterprise| - 1] != '/') ==>
            var r := GetScimEndpoint(envType, enterprise); r[|r| - 1] != '/'
  {
    var r := GetScimEndpoint(envType, enterprise);
    var tail := "/enterprises/" + enterprise;
    assert r == GetBaseUrls(envType, enterprise).api + "/scim/v2" + tail;
    assert r[|r| - |tail|..] == tail;
    if |enterprise| > 0 {
      assert r[|r| - 1] == enterprise[|enterprise| - 1];
    }
  }

  /** The ghe.com Entity ID names the enterprise twice; either occurrence determines it. */
  lemma GheEntityIdInjective(e1: string, e2: string)
    requires Scheme + e1 + ".ghe.com" + "/enterprises/" + e1 == Scheme + e2 + ".ghe.com" + "/enterprises/" + e2
    ensures e1 == e2
  {
    var id1 := Scheme + e1 + ".ghe.com" + "/enterprises/" + e1;
    var id2 := Scheme + e2 + ".ghe.com" + "/enterprises/" + e2;
    assert |id1| == |Scheme| + 2 * |e1| + 21;
    assert |id2| == |Scheme| + 2 * |e2| + 21;
    assert id1[|Scheme|..|Scheme| + |e1|] == e1;
    assert id2[|Scheme|..|Scheme| + |e2|] == e2;
  }

  /**
   * Distinct enterprises never share an Entity ID within one environment, so the
   * Entity ID identifies the enterprise.
   */
  lemma EntityIdInjective(envType: Option<string>, e1: string, e2: string, s1: string, s2: string)
    requires GetAppConfig(envType, e1, s1).entityId == GetAppConfig(envType, e2, s2).entityId
    ensures e1 == e2
  {
    var id1 := GetAppConfig(envType, e1, s1).entityId;
    var id2 := GetAppConfig(envType, e2, s2).entityId;
    var web1 := GetBaseUrls(envType, e1).web;
    var web2 := GetBaseUrls(envType, e2).web;
    assert id1 == web1 + "/enterprises/" + e1;
    assert id2 == web2 + "/enterprises/" + e2;
    if envType == Some("ghe.com") {
      assert web1 == Scheme + e1 + ".ghe.com" && web2 == Scheme + e2 + ".ghe.com";
      GheEntityIdInjective(e1, e2);
    } else {
      assert web1 == web2;
      var prefix := web1 + "/enterprises/";
      assert id1 == prefix + e1 && id2 == prefix + e2;
      assert id1[|prefix|..] == e1;
      assert id2[|prefix|..] == e2;
    }
  }
}
