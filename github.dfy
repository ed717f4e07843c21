/**
 * The GitHub side: the enterprise SAML settings checks, the SAML settings patch and the
 * access check. Each REST reply is an input: either the reply's data (possibly absent)
 * or the message of the error the request threw.
 */
module GitHub {
  import opened Common

  datatype Response<+T> = Reply(data: Option<T>) | RequestFailed(message: string)

  /** The enterprise SAML settings as the REST API returns them. */
  datatype SamlData = SamlData(
    enabled: bool,
    ssoUrl: Option<string>,
    issuer: Option<string>,
    certificate: Option<string>)

  datatype EnterpriseData = EnterpriseData(name: Option<string>)

  /** What V8 throws when a property of an absent reply is read. */
  function ReadOfUndefined(property: string): string
  {
    "Cannot read properties of undefined (reading '" + property + "')"
  }

  // ---------------------------------------------------------------- access and SSO test

  /** `validateEnterpriseAccess`: a thrown request becomes a failed result naming the slug. */
  function ValidateEnterpriseAccess(enterpriseSlug: string, response: Response<EnterpriseData>): (r: CheckResult)
    ensures response.RequestFailed? ==>
      r == CheckResult(false, "Cannot access enterprise " + enterpriseSlug + ": " + response.message)
    ensures r.success <==> response.Reply? && response.data.Some?
    ensures r.success ==> r.message == "Access confirmed for enterprise: " +
                                       (match response.data.value.name case None => "undefined" case Some(n) => n)
  {
    match response
    case RequestFailed(msg) => CheckResult(false, "Cannot access enterprise " + enterpriseSlug + ": " + msg)
    case Reply(None) =>
      CheckResult(false, "Cannot access enterprise " + enterpriseSlug + ": " + ReadOfUndefined("name"))
    case Reply(Some(enterprise)) =>
      var name := match enterprise.name case None => "undefined" case Some(n) => n;
      CheckResult(true, "Access confirmed for enterprise: " + name)
  }

  const SsoEnabled := "SAML SSO is enabled and configured"
  const SsoNotEnabled := "SAML SSO is not enabled"

  /** `testSSOConfiguration`: success iff the reply has data and SSO is enabled. */
  function TestSSOConfiguration(response: Response<SamlData>): (r: CheckResult)
    ensures r.success <==> response.Reply? && response.data.Some? && response.data.value.enabled
    ensures r.success ==> r.message == SsoEnabled
    ensures response.Reply? && !r.success ==> r.message == SsoNotEnabled
    ensures response.RequestFailed? ==> r.message == "Error testing SSO: " + response.message
  {
    match response
    case RequestFailed(msg) => CheckResult(false, "Error testing SSO: " + msg)
    case Reply(data) =>
      if data.Some? && data.value.enabled then CheckResult(true, SsoEnabled)
      else CheckResult(false, SsoNotEnabled)
  }

  // ---------------------------------------------------------------- SSO configuration check

  const SsoUrlIssue := "SSO URL not configured"
  const IssuerIssue := "Issuer not configured"
  const CertificateIssue := "Certificate not configured"
  const ConfigValid := "SAML configuration is valid"
  const IssuesPrefix := "Configuration issues: "
  const ValidateErrorPrefix := "Error validating SSO config: "

  /** The issues of an enabled configuration: one per missing field, in the fixed order SSO URL, issuer, certificate. */
  function Issues(c: SamlData): (issues: seq<string>)
    ensures |issues| <= 3
    ensures forall x :: x in issues ==> x in [SsoUrlIssue, IssuerIssue, CertificateIssue]
    ensures (SsoUrlIssue in issues <==> !Truthy(c.ssoUrl)) &&
            (IssuerIssue in issues <==> !Truthy(c.issuer)) &&
            (CertificateIssue in issues <==> !Truthy(c.certificate))
    ensures issues == [] <==> Truthy(c.ssoUrl) && Truthy(c.issuer) && Truthy(c.certificate)
    ensures forall i, j :: 0 <= i < j < |issues| ==> IssueRank(issues[i]) < IssueRank(issues[j])
  {
    (if Truthy(c.ssoUrl) then [] else [SsoUrlIssue]) +
    (if Truthy(c.issuer) then [] else [IssuerIssue]) +
    (if Truthy(c.certificate) then [] else [CertificateIssue])
  }

  /** The position of an issue in the fixed order. */
  function IssueRank(issue: string): nat
  {
    if issue == SsoUrlIssue then 0 else if issue == IssuerIssue then 1 else 2
  }

  /** `validateSSOConfig`: never throws; the issues are collected by successive pushes. */
  method ValidateSSOConfig(response: Response<SamlData>) returns (r: CheckResult)
    ensures response.RequestFailed? ==> r == CheckResult(false, ValidateErrorPrefix + response.message)
    ensures response == Reply(None) ==> r == CheckResult(false, ValidateErrorPrefix + ReadOfUndefined("enabled"))
    ensures response.Reply? && response.data.Some? && !response.data.value.enabled ==>
              r == CheckResult(false, SsoNotEnabled)
    ensures response.Reply? && response.data.Some? && response.data.value.enabled ==>
              var issues := Issues(response.data.value);
              r == (if issues == [] then CheckResult(true, ConfigValid)
                    else CheckResult(false, IssuesPrefix + Join(issues, ", ")))
  {
    if response.RequestFailed? {
      return CheckResult(false, ValidateErrorPrefix + response.message);
    }
    if response.data.None? {
      return CheckResult(false, ValidateErrorPrefix + ReadOfUndefined("enabled"));
    }
    var samlConfig := response.data.value;
    if !samlConfig.enabled {
      return CheckResult(false, SsoNotEnabled);
    }
    var issues: seq<string> := [];
    if !Truthy(samlConfig.ssoUrl) { issues := issues + [SsoUrlIssue]; }
    if !Truthy(samlConfig.issuer) { issues := issues + [IssuerIssue]; }
    if !Truthy(samlConfig.certificate) { issues := issues + [CertificateIssue]; }
    assert issues == Issues(samlConfig);
    if |issues| > 0 {
      return CheckResult(false, IssuesPrefix + Join(issues, ", "));
    }
    return CheckResult(true, ConfigValid);
  }

  /** The issue list names every missing field, so a configuration missing everything lists all three. */
  lemma NothingConfigured()
    ensures Join(Issues(SamlData(true, None, None, None)), ", ") ==
            SsoUrlIssue + ", " + IssuerIssue + ", " + CertificateIssue
  {
    var issues := Issues(SamlData(true, None, None, None));
    assert issues == [SsoUrlIssue, IssuerIssue, CertificateIssue];
    assert issues[1..] == [IssuerIssue, CertificateIssue];
    assert issues[1..][1..] == [CertificateIssue];
  }

  // ---------------------------------------------------------------- SAML settings patch

  datatype SamlConfig = SamlConfig(ssoUrl: string, entityId: string, certificate: string)

  datatype SamlPatch = SamlPatch(
    enterprise: string,
    ssoUrl: string,
    issuer: string,
    certificate: string,
    signatureMethod: string,
    digestMethod: string)

  /** The body of `PATCH /enterprises/{enterprise}/settings/saml`. */
  function SamlPatchRequest(enterpriseSlug: string, config: SamlConfig): (p: SamlPatch)
    ensures p.signatureMethod == "rsa-sha256" && p.digestMethod == "sha256"
  {
    SamlPatch(enterpriseSlug, config.ssoUrl, config.entityId, config.certificate, "rsa-sha256", "sha256")
  }

  /** The configuration a patch carries. */
  function ConfigOf(p: SamlPatch): SamlConfig
  {
    SamlConfig(p.ssoUrl, p.issuer, p.certificate)
  }

  /** The patch loses nothing: the enterprise and the whole configuration, certificate unchanged, are read back from it. */
  lemma SamlPatchRoundTrip(enterpriseSlug: string, config: SamlConfig)
    ensures ConfigOf(SamlPatchRequest(enterpriseSlug, config)) == config
    ensures SamlPatchRequest(enterpriseSlug, config).enterprise == enterpriseSlug
  {
  }

  /** Distinct configurations give distinct patches. */
  lemma SamlPatchInjective(enterpriseSlug: string, c1: SamlConfig, c2: SamlConfig)
    requires SamlPatchRequest(enterpriseSlug, c1) == SamlPatchRequest(enterpriseSlug, c2)
    ensures c1 == c2
  {
    SamlPatchRoundTrip(enterpriseSlug, c1);
    SamlPatchRoundTrip(enterpriseSlug, c2);
  }

  const ConfigureSamlPrefix := "Failed to configure GitHub SAML: "

  /**
   * `configureSAML`: `send` performs the PATCH request and gives the message of the
   * error it threw, if it did.
   */
  function ConfigureSAML(enterpriseSlug: string, config: SamlConfig, send: SamlPatch -> Option<string>): (r: Result<(), string>)
    ensures r.Ok? <==> send(SamlPatchRequest(enterpriseSlug, config)).None?
    ensures r.Err? ==> r.error == ConfigureSamlPrefix + send(SamlPatchRequest(enterpriseSlug, config)).value
  {
    match send(SamlPatchRequest(enterpriseSlug, config))
    case None => Ok(())
    case Some(msg) => Err(ConfigureSamlPrefix + msg)
  }

  /** `createOrganization` is not implemented and always fails. */
  function CreateOrganization(enterpriseSlug: string, orgName: string): (r: Result<(), string>)
    ensures r == Err("Organization creation not yet implemented")
  {
    Err("Organization creation not yet implemented")
  }
}
