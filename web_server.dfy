/**
 * The web front end's `POST /api/generate-plan` handler: the request checks in their
 * order, the domain default, the telemetry event and the download name. The handler
 * is a chain of early returns, modelled as one function from the request body to the
 * response.
 */
module WebServer {
  import opened Common
  import Template

  /** The JSON body; each field is absent when the client did not send it. */
  datatype PlanRequest = PlanRequest(
    enterpriseName: Option<string>,
    ssoType: Option<string>,
    envType: Option<string>,
    domain: Option<string>)

  /** The `PlanGenerated` telemetry event. */
  datatype PlanEvent = PlanEvent(
    enterpriseName: string,
    ssoType: string,
    envType: string,
    domain: string,
    timestamp: string,
    source: string)

  datatype PlanResponse =
    | ErrorResponse(status: nat, error: string)
    | HtmlDownload(contentType: string, contentDisposition: string, html: string, event: Option<PlanEvent>)

  const MissingFields := "Missing required fields"
  const InvalidSsoType := "Invalid SSO type"
  const InvalidEnvType := "Invalid environment type"
  const GenerateFailurePrefix := "Failed to generate setup plan: "

  predicate ValidSsoType(ssoType: string) { ssoType == "saml" || ssoType == "oidc" }
  predicate ValidEnvType(envType: string) { envType == "github.com" || envType == "ghe.com" }

  /** The request passes every check of the handler. */
  predicate Accepted(body: PlanRequest)
  {
    Truthy(body.enterpriseName) && Truthy(body.ssoType) && Truthy(body.envType) &&
    ValidSsoType(body.ssoType.value) && ValidEnvType(body.envType.value)
  }

  /**
   * The handler. `generate` stands for the template processor's content generator,
   * called with the enterprise, the domain, the SSO type and the environment, and
   * returning the plan's HTML or the message of the error it threw. `telemetry` says
   * whether Application Insights is configured; `eventIso` and `fileIso` are the two
   * clock readings the handler takes.
   */
  function GeneratePlan(
    body: PlanRequest,
    generate: (string, string, string, string) -> Result<string, string>,
    telemetry: bool,
    eventIso: string,
    fileIso: string): (r: PlanResponse)
    ensures !(Truthy(body.enterpriseName) && Truthy(body.ssoType) && Truthy(body.envType)) <==>
            r == ErrorResponse(400, MissingFields)
    ensures (Truthy(body.enterpriseName) && Truthy(body.ssoType) && Truthy(body.envType) &&
             !ValidSsoType(body.ssoType.value)) ==> r == ErrorResponse(400, InvalidSsoType)
    ensures (Truthy(body.enterpriseName) && Truthy(body.ssoType) && Truthy(body.envType) &&
             ValidSsoType(body.ssoType.value) && !ValidEnvType(body.envType.value)) ==>
            r == ErrorResponse(400, InvalidEnvType)
    ensures r.HtmlDownload? ==> Accepted(body)
    ensures Accepted(body) ==>
            var generated := generate(body.enterpriseName.value, OrDefault(body.domain, "common"),
                                      body.ssoType.value, body.envType.value);
            (generated.Err? ==> r == ErrorResponse(500, GenerateFailurePrefix + generated.error)) &&
            (generated.Ok? ==>
               r.HtmlDownload? && r.html == generated.value && r.contentType == "text/html" &&
               r.contentDisposition ==
                 "attachment; filename=\"" + Template.DefaultHtmlFilename(body.enterpriseName.value, fileIso) + "\"" &&
               (r.event.Some? <==> telemetry) &&
               (telemetry ==> r.event.value.domain == OrDefault(body.domain, "common") &&
                              r.event.value.timestamp == eventIso))
  {
    if !Truthy(body.enterpriseName) || !Truthy(body.ssoType) || !Truthy(body.envType) then
      ErrorResponse(400, MissingFields)
    else
      var enterpriseName, ssoType, envType := body.enterpriseName.value, body.ssoType.value, body.envType.value;
      if !ValidSsoType(ssoType) then ErrorResponse(400, InvalidSsoType)
      else if !ValidEnvType(envType) then ErrorResponse(400, InvalidEnvType)
      else
        var domain := OrDefault(body.domain, "common");
        match generate(enterpriseName, domain, ssoType, envType)
        case Err(msg) => ErrorResponse(500, GenerateFailurePrefix + msg)
        case Ok(htmlContent) =>
          var event := if telemetry
                       then Some(PlanEvent(enterpriseName, ssoType, envType, domain, eventIso, "web-server"))
                       else None;
          var filename := Template.FilePrefix + enterpriseName + "-" + Template.IsoStamp(fileIso) + ".html";
          HtmlDownload("text/html", "attachment; filename=\"" + filename + "\"", htmlContent, event)
  }

  /** The SSO type is checked before the environment: a request wrong in both is refused for its SSO type. */
  lemma SsoTypeCheckedFirst(body: PlanRequest, generate: (string, string, string, string) -> Result<string, string>,
                            telemetry: bool, eventIso: string, fileIso: string)
    requires Truthy(body.enterpriseName) && Truthy(body.ssoType) && Truthy(body.envType)
    requires !ValidSsoType(body.ssoType.value) && !ValidEnvType(body.envType.value)
    ensures GeneratePlan(body, generate, telemetry, eventIso, fileIso).error == InvalidSsoType
    ensures GeneratePlan(body, generate, telemetry, eventIso, fileIso).error != InvalidEnvType
  {
    assert InvalidSsoType[0] != InvalidEnvType[0] || InvalidSsoType[8] != InvalidEnvType[8];
  }

  /** An absent or empty domain is handled exactly as the domain `common`. */
  lemma DomainDefaultsToCommon(body: PlanRequest, generate: (string, string, string, string) -> Result<string, string>,
                               telemetry: bool, eventIso: string, fileIso: string)
    requires body.domain == None || body.domain == Some("")
    ensures GeneratePlan(body, generate, telemetry, eventIso, fileIso) ==
            GeneratePlan(body.(domain := Some("common")), generate, telemetry, eventIso, fileIso)
  {
  }

  /** The download name is the one `getDefaultHtmlFilename` gives, so it has its shape. */
  lemma DownloadNameShape(body: PlanRequest, generate: (string, string, string, string) -> Result<string, string>,
                          telemetry: bool, eventIso: string, fileIso: string)
    requires Accepted(body)
    requires generate(body.enterpriseName.value, OrDefault(body.domain, "common"), body.ssoType.value, body.envType.value).Ok?
    ensures var r := GeneratePlan(body, generate, telemetry, eventIso, fileIso);
            var f := Template.DefaultHtmlFilename(body.enterpriseName.value, fileIso);
            var head := Template.FilePrefix + body.enterpriseName.value + "-";
            r.HtmlDownload? && r.contentDisposition == "attachment; filename=\"" + f + "\"" &&
            StartsWith(f, head) && EndsWith(f, ".html") && f[|head|..|f| - 5] == Template.IsoStamp(fileIso)
  {
    Template.DefaultHtmlFilenameShape(body.enterpriseName.value, fileIso);
  }
}
