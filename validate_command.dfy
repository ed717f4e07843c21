/**
 * The `validate` command: choosing the enterprise and tenant, running the three
 * validation checks in order, and the status-to-icon and status-to-colour mapping of
 * the summary.
 */
module ValidateCommand {
  import opened Common
  import Config
  import Azure

  // ---------------------------------------------------------------- enterprise and tenant

  const NoEnterpriseMessage := "No enterprise specified. Use --enterprise or run setup first."

  function NoConfigurationMessage(enterpriseName: string): string
  {
    "No configuration found for enterprise: " + enterpriseName
  }

  /**
   * Where the command goes before it authenticates: it stops without an enterprise or
   * without a stored profile for it, and otherwise proceeds with the tenant handed to
   * authentication and the tenant the directory service is built with.
   */
  datatype Selection =
    | NoEnterprise
    | NoProfile(enterpriseName: string)
    | Proceed(enterpriseName: string, config: Config.EnterpriseConfig, authTenant: Option<string>, serviceTenant: string)

  /** The message a stopped command prints. */
  function StopMessage(s: Selection): string
    requires !s.Proceed?
  {
    if s.NoEnterprise? then NoEnterpriseMessage else NoConfigurationMessage(s.enterpriseName)
  }

  /** `options.enterprise || current`, then the stored profile, then `options.domain || config.azure.tenantDomain`. */
  function SelectValidation(m: Config.ConfigManager, enterpriseOption: Option<string>, domainOption: Option<string>): (r: Selection)
    reads m
    ensures r.NoEnterprise? <==> !Truthy(enterpriseOption) && !Truthy(m.GetCurrentEnterprise())
    ensures !r.NoEnterprise? ==>
              r.enterpriseName == (if Truthy(enterpriseOption) then enterpriseOption.value else m.GetCurrentEnterprise().value)
    ensures r.NoProfile? <==> !r.NoEnterprise? && m.GetEnterpriseConfig(r.enterpriseName).None?
    ensures r.Proceed? ==> Some(r.config) == m.GetEnterpriseConfig(r.enterpriseName)
    ensures r.Proceed? ==>
              r.authTenant == (if Truthy(domainOption) then domainOption else Some(r.config.azure.tenantDomain))
    ensures r.Proceed? ==> r.serviceTenant == (if Truthy(r.authTenant) then r.authTenant.value else "common")
  {
    var enterprise := if Truthy(enterpriseOption) then enterpriseOption else m.GetCurrentEnterprise();
    if !Truthy(enterprise) then NoEnterprise
    else
      var enterpriseName := enterprise.value;
      match m.GetEnterpriseConfig(enterpriseName)
      case None => NoProfile(enterpriseName)
      case Some(config) =>
        var tenantDomain := if Truthy(domainOption) then domainOption else Some(config.azure.tenantDomain);
        Proceed(enterpriseName, config, tenantDomain, if Truthy(tenantDomain) then tenantDomain.value else "common")
  }

  /** The domain option wins over the stored tenant, and the service is never built with an empty tenant. */
  lemma DomainOptionWins(m: Config.ConfigManager, enterpriseOption: Option<string>, domain: string)
    requires domain != ""
    ensures var r := SelectValidation(m, enterpriseOption, Some(domain));
            r.Proceed? ==> r.authTenant == Some(domain) && r.serviceTenant == domain
  {
  }

  /** With a stored current enterprise and its profile, no option is needed to proceed. */
  lemma StoredEnterpriseSuffices(m: Config.ConfigManager, name: string, config: Config.EnterpriseConfig)
    requires m.config == Config.WithCurrentEnterprise(Config.Defaults, name, config) && name != ""
    ensures var r := SelectValidation(m, None, None);
            r.Proceed? && r.enterpriseName == name && r.config == config &&
            r.serviceTenant == (if config.azure.tenantDomain == "" then "common" else config.azure.tenantDomain)
  {
    Config.SetThenGet(Config.Defaults, name, config);
  }

  // ---------------------------------------------------------------- the checks

  /** How one check's test ended: it returned a result, or it threw an error with this message. */
  datatype Outcome = Returned(result: CheckResult) | Threw(message: string)

  datatype Check = Check(name: string, outcome: Outcome)

  datatype Status = Pass | Fail | Errored

  datatype ValidationResult = ValidationResult(name: string, status: Status, message: string)

  const CheckNames := ["Entra ID Application", "SAML Configuration", "Certificate Validity"]

  /** The record a check contributes: `pass` on success, `fail` otherwise, `error` when its test threw. */
  function Classify(check: Check): (r: ValidationResult)
    ensures r.name == check.name
    ensures r.status == Errored <==> check.outcome.Threw?
    ensures r.status == Pass <==> check.outcome.Returned? && check.outcome.result.success
    ensures r.message == (if check.outcome.Threw? then check.outcome.message else check.outcome.result.message)
  {
    match check.outcome
    case Threw(msg) => ValidationResult(check.name, Errored, msg)
    case Returned(result) =>
      ValidationResult(check.name, if result.success then Pass else Fail, result.message)
  }

  /** The loop of `runValidationChecks`: one record per check, in order; a throwing check does not stop the rest. */
  method RunChecks(checks: seq<Check>) returns (results: seq<ValidationResult>)
    ensures |results| == |checks|
    ensures forall i :: 0 <= i < |checks| ==> results[i] == Classify(checks[i])
  {
    results := [];
    for i := 0 to |checks|
      invariant |results| == i
      invariant forall k :: 0 <= k < i ==> results[k] == Classify(checks[k])
    {
      var check := checks[i];
      match check.outcome {
        case Returned(result) =>
          if result.success {
            results := results + [ValidationResult(check.name, Pass, result.message)];
          } else {
            results := results + [ValidationResult(check.name, Fail, result.message)];
          }
        case Threw(msg) =>
          results := results + [ValidationResult(check.name, Errored, msg)];
      }
    }
  }

  /** `runValidationChecks` on the three checks of the directory service, in declaration order. */
  method RunValidationChecks(azureService: Azure.AzureService) returns (results: seq<ValidationResult>)
    ensures |results| == 3
    ensures forall i :: 0 <= i < 3 ==> results[i].name == CheckNames[i]
    ensures results[0] == Classify(Check(CheckNames[0], Returned(Azure.ValidateEnterpriseAppResult(azureService.graph))))
    ensures results[1] == Classify(Check(CheckNames[1], Returned(Azure.ValidateSamlConfig())))
    ensures results[2] == Classify(Check(CheckNames[2], Returned(Azure.ValidateCertificate())))
    ensures results[1].status == Pass && results[2].status == Pass
  {
    var app := azureService.ValidateEnterpriseApp();
    var checks := [
      Check(CheckNames[0], Returned(app)),
      Check(CheckNames[1], Returned(Azure.ValidateSamlConfig())),
      Check(CheckNames[2], Returned(Azure.ValidateCertificate()))];
    results := RunChecks(checks);
  }

  /** The command reports success iff every status is `pass`. */
  predicate AllPassed(results: seq<ValidationResult>)
  {
    forall i :: 0 <= i < |results| ==> results[i].status == Pass
  }

  /** On the directory service's checks, everything passes iff the application check does. */
  lemma AllPassedIffAppFound(azureService: Azure.AzureService, results: seq<ValidationResult>)
    requires |results| == 3
    requires results[0] == Classify(Check(CheckNames[0], Returned(Azure.ValidateEnterpriseAppResult(azureService.graph))))
    requires results[1].status == Pass && results[2].status == Pass
    ensures AllPassed(results) <==> Azure.ValidateEnterpriseAppResult(azureService.graph).success
  {
    if Azure.ValidateEnterpriseAppResult(azureService.graph).success {
      forall i | 0 <= i < 3 ensures results[i].status == Pass {
        if i == 0 { assert results[0].status == Pass; }
      }
    }
  }

  // ---------------------------------------------------------------- the summary

  function Icon(status: Status): string
  {
    match status
    case Pass => "✅"
    case Fail => "❌"
    case Errored => "⚠️"
  }

  function Color(status: Status): string
  {
    match status
    case Pass => "green"
    case Fail => "red"
    case Errored => "yellow"
  }

  /** The two mappings move together, and each tells the three statuses apart. */
  lemma IconAndColorAgree(s: Status, t: Status)
    ensures Icon(s) == Icon(t) <==> s == t
    ensures Color(s) == Color(t) <==> s == t
    ensures (Icon(s) == "✅" <==> Color(s) == "green") && (Icon(s) == "❌" <==> Color(s) == "red")
  {
    assert "✅" != "❌" && "✅" != "⚠️" && "❌" != "⚠️";
    assert "green"[0] != "red"[0] && "green"[0] != "yellow"[0] && "red"[0] != "yellow"[0];
  }

  /** One entry of the summary: its colour, the icon and name, and the message below them when it is non-empty. */
  datatype SummaryEntry = SummaryEntry(color: string, heading: string, detail: Option<string>)

  function Summary(results: seq<ValidationResult>): (lines: seq<SummaryEntry>)
    ensures |lines| == |results|
    ensures forall i :: 0 <= i < |results| ==>
              lines[i].color == Color(results[i].status) &&
              lines[i].heading == Icon(results[i].status) + " " + results[i].name &&
              (lines[i].detail.Some? <==> results[i].message != "") &&
              (lines[i].detail.Some? ==> lines[i].detail.value == "   " + results[i].message)
  {
    if results == [] then []
    else
      var r := results[0];
      [SummaryEntry(Color(r.status), Icon(r.status) + " " + r.name,
                    if r.message != "" then Some("   " + r.message) else None)] + Summary(results[1..])
  }
}
