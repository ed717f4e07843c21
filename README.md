# GitHub Enterprise SSO setup, modelled in Dafny

This project models the core of `ghec-sso-setup`, a command-line tool plus small web
front end. The tool connects a GitHub Enterprise Cloud enterprise to Microsoft Entra ID
by SAML (or prepares an OIDC plan): it builds the environment-specific GitHub URLs,
validates user input, renders a Markdown setup-plan template with an enterprise's
values, creates and configures the Entra enterprise application through Microsoft
Graph, configures and checks the enterprise's SAML settings on GitHub, keeps a profile
and token store, and runs the `validate` command's checks.

One Dafny module per source file:

| module | file | form |
|---|---|---|
| `Common` | `common.dfy` | shared helpers: `Option`, `Result`, `CheckResult`, JavaScript truthiness, string search, `Array.find`, `join` |
| `EnvUrls` | `env_urls.dfy` | functions |
| `Validation` | `validation.dfy` | predicates over characters, with lemmas giving the shape each regular expression describes |
| `Template` | `template.dfy` | global literal replacement as a function, `processTemplate` as a method with a loop invariant, the setup-plan table as a function |
| `Azure` | `azure.dfy` | the directory as an abstract state held by class `AzureService` |
| `GitHub` | `github.dfy` | REST replies are inputs; `validateSSOConfig` is a method that pushes issues |
| `Config` | `config.dfy` | class `ConfigManager` over an in-memory store, each operation specified by a function on the store |
| `ValidateCommand` | `validate_command.dfy` | the command's selection logic, the check loop as a method, the summary mapping |
| `Auth` | `auth.dfy` | tenant normalisation; class `AuthService` whose token decisions update the store |
| `WebServer` | `web_server.dfy` | the `/api/generate-plan` handler as a function from request to response |

Inputs the program gets from the outside world are parameters:
- the template files present (a map from file name to contents);
- the clock's renderings of "now";
- the Graph directory state;
- every HTTP reply, or the message of the error it threw;
- whether GitHub accepts a token;
- the GitHub device-flow outcome, the Azure device-code login's outcome per tenant, and the token typed at the prompt;
- whether an Azure CLI session exists;
- the Markdown-to-HTML conversion;
- the web server's content generator.

## Model

| member | source | states |
|---|---|---|
| Common.Truthy | src/commands/validate.ts:17 | no contract; JavaScript truthiness of an optional string (absent and `""` are falsy) |
| Common.OrDefault | src/commands/validate.ts:40 | `s \|\| fallback`: the result is the value or the fallback, the fallback is taken only when the value is falsy, and the result is non-empty iff the value is truthy or the fallback is non-empty |
| Common.FirstWhere | src/services/azure.ts:93-95 | `Array.find`: the first element satisfying the test; absent iff none does |
| Common.Upper | src/utils/template.ts:59 | same length, each character upper-cased |
| Common.JoinLength | src/services/github.ts:102 | `join` of no parts is empty; otherwise its length is the parts' total length plus one separator between each two parts |
| Common.JoinPositions | src/services/github.ts:102 | in `join`, part k starts after the parts before it and one separator after each, and a separator follows every part but the last |
| Common.NatToString | src/services/azure.ts:128 | a non-empty string of decimal digits with no leading zero for a positive count |
| Common.NatToStringValue | src/services/azure.ts:128 | the rendered digits denote the count itself |
| EnvUrls.GetBaseUrls | src/utils/envUrls.ts:5-17 | only `ghe.com` gives `https://<e>.ghe.com`; every other or absent environment gives the github.com hosts; the API host is always the web host with `api.` after the scheme |
| EnvUrls.GetAppConfig | src/utils/envUrls.ts:24-40 | every URL is the Entity ID (`<web>/enterprises/<e>`) plus its fixed suffix; the reply URL is `/oauth/callback` exactly for `oidc`, otherwise `/saml/consume`; the token URL is the web host plus the SCIM token path |
| EnvUrls.GetScimEndpoint | src/utils/envUrls.ts:19-22 | no contract; specified by `ScimEndpointMatchesEntityId` and `ScimEndpointNoTrailingSlash` |
| EnvUrls.DotComIndependentOfEnterprise | src/utils/envUrls.ts:11-16 | outside ghe.com the hosts, and so the token URL, do not depend on the enterprise |
| EnvUrls.ScimEndpointMatchesEntityId | src/utils/envUrls.ts:19-22 | the SCIM endpoint is the API host, `/scim/v2`, then the Entity ID's path |
| EnvUrls.ScimEndpointNoTrailingSlash | src/utils/envUrls.ts:19-22 | the SCIM endpoint ends in `/enterprises/<e>` and has no trailing slash when the enterprise name is non-empty and does not end in `/` |
| EnvUrls.EntityIdInjective | src/utils/envUrls.ts:31 | within one environment, distinct enterprises never share an Entity ID |
| Validation.ValidateEnterpriseSlug | src/utils/validation.ts:1-5 | no contract; specified by `SlugAcceptedIff` |
| Validation.SlugAcceptedIff | src/utils/validation.ts:1-5 | a slug is accepted iff every character is in `[a-z0-9-]` and its length is 2 to 39 |
| Validation.SlugRejectsEmptyAndUpper | src/utils/validation.ts:1-5 | the empty slug and any slug with an upper-case letter are refused |
| Validation.ValidateTenantDomain | src/utils/validation.ts:7-11 | no contract; specified by `TenantDomainIff` |
| Validation.TenantDomainIff | src/utils/validation.ts:7-11 | the predicate accepts exactly the strings where a dot separates a 3-63 character label (alphanumeric ends, hyphens inside) from a 2+ letter top label |
| Validation.TenantDomainOneDot | src/utils/validation.ts:7-11 | an accepted domain holds exactly one dot |
| Validation.TwoDotsRejected | src/utils/validation.ts:7-11 | a domain with two dots is refused |
| Validation.OnMicrosoftDomainRejected | src/utils/validation.ts:7-11 | a full `company.onmicrosoft.com` name is refused |
| Validation.ValidateEmail | src/utils/validation.ts:13-16 | no contract; specified by `EmailAcceptedIff` |
| Validation.EmailAcceptedIff | src/utils/validation.ts:13-16 | an address is accepted iff it has no JavaScript whitespace and exactly one `@`, a non-empty local part, and a dot strictly inside the domain part |
| Template.Placeholder | src/utils/template.ts:34 | a placeholder is the key in double braces, four characters longer than the key |
| Template.ReplaceAll | src/utils/template.ts:35 | no contract; specified by `ReplaceFree`, `ReplaceFirst`, `ReplaceAtLeftmost`, `ReplaceCreatesNoOccurrence` and `ReplaceKeepsOccurrence` |
| Template.ReplaceFree | src/utils/template.ts:35 | replacing a placeholder that does not occur leaves the content unchanged |
| Template.ReplaceFirst | src/utils/template.ts:35 | the leftmost occurrence is replaced first and scanning resumes after it, with no rescan of the inserted value |
| Template.ReplacePrefixBeforeMatch | src/utils/template.ts:35 | the text before the first occurrence is kept as it was |
| Template.LeftmostOccurrence | src/utils/template.ts:35 | every occurrence has a leftmost occurrence at or before it |
| Template.ReplaceAtLeftmost | src/utils/template.ts:35 | global replacement splits at the leftmost occurrence: prefix, value, then the replaced rest |
| Template.OccurrenceBesideValue | src/utils/template.ts:35 | a pattern that cannot be formed across a value occurs in `x + v + z` only inside `x` or inside `z` |
| Template.ReplaceCreatesNoOccurrence | src/utils/template.ts:35 | replacing with a value that cannot form `q` creates no `q`; in particular, the replaced placeholder is gone |
| Template.ReplaceKeepsOccurrence | src/utils/template.ts:35 | replacing one placeholder keeps any occurrence of a pattern that cannot overlap it |
| Template.PlaceholdersDoNotOverlap | src/utils/template.ts:34 | placeholders of distinct brace-free keys cannot overlap |
| Template.Substitute | src/utils/template.ts:33-36 | no contract; specified by `SubstituteLeavesNoPlaceholder`, `SubstituteKeepsUnknownPlaceholder` and `SubstituteWithoutPlaceholders`, and `ProcessTemplate` is proved against it |
| Template.SubstituteLeavesNoPlaceholder | src/utils/template.ts:33-36 | when no value can form any current or earlier placeholder, no table key's placeholder survives substitution |
| Template.SubstituteKeepsUnknownPlaceholder | src/utils/template.ts:33-36 | the placeholder of a key absent from the table survives substitution |
| Template.SubstituteWithoutPlaceholders | src/utils/template.ts:33-36 | content without any of the table's placeholders is returned unchanged |
| Template.LaterValueReintroducesPlaceholder | src/utils/template.ts:33-36 | counterexample: a later value that holds an earlier key's placeholder leaves that placeholder in the output |
| Template.ProcessTemplate | src/utils/template.ts:22-42 | a missing file gives `Failed to process template <name>: Template file not found: <dir>/<name>`; otherwise the result is the content with the entries substituted in order |
| Template.TemplateName | src/utils/template.ts:54 | `oidc` selects the OIDC template and every other type the SAML one |
| Template.Lookup | src/utils/template.ts:33 | the value of a key is the value of its first entry; absent iff no entry has that key |
| Template.ZipLookup | src/utils/template.ts:55-70 | in the zipped table, a key is looked up to the value beside its first occurrence |
| Template.ZipLookupAbsent | src/utils/template.ts:55-70 | a key that is not among the zipped keys has no value |
| Template.LookupFirst | src/utils/template.ts:33 | an entry whose key is not repeated before it is the one looked up |
| Template.SetupPlanKeysDistinct | src/utils/template.ts:56-69 | the fourteen keys of the table are distinct |
| Template.SetupPlanKeyWords | src/utils/template.ts:56-69 | every key of the setup-plan table is made of upper-case letters and `_` |
| Template.SetupPlanValues | src/utils/template.ts:55-70 | one value per key of the table; otherwise no contract, specified by `SetupPlanAgreesWithAppConfig`, `SetupPlanDomainAndType`, `SetupPlanReplyUrlIsSaml` and the display-name lemmas |
| Template.SetupPlanVariables | src/utils/template.ts:55-70 | no contract; specified by `SetupPlanLookup` |
| Template.SetupPlanLookup | src/utils/template.ts:55-70 | each key of the table is substituted by its own value |
| Template.SetupPlanAgreesWithAppConfig | src/utils/template.ts:62-69 | ENTITY_ID, SIGN_ON_URL, LOGOUT_URL and the three GitHub URLs equal the application configuration's fields; SCIM_ENDPOINT is the SCIM endpoint plus `/` |
| Template.SetupPlanReplyUrlIsSaml | src/utils/template.ts:63 | REPLY_URL is the SAML consumer URL for every SSO type, so for OIDC it is not the configured callback |
| Template.SetupPlanDomainAndType | src/utils/template.ts:56-60 | DOMAIN is the fixed hint for `common` and the domain otherwise; SSO_TYPE is the upper-cased type; the other plain values pass through |
| Template.SetupPlanDisplayNameSaml | src/utils/template.ts:61 | for SAML the plan's display name is the configured one |
| Template.SetupPlanDisplayNameOidc | src/utils/template.ts:61 | for OIDC the plan's display name differs from the configured OIDC name |
| Template.SlugIsSafeValue | src/utils/template.ts:57 | every valid enterprise slug is a value that cannot form a placeholder |
| Template.SetupPlanInert | src/utils/template.ts:55-70 | with brace-free inputs that each hold a character outside A–Z and `_` (every accepted slug does, `SlugIsSafeValue`) and a valid SSO type, no value of the table can form any table key's placeholder |
| Template.SetupPlanLeavesNoPlaceholder | src/utils/template.ts:55-70 | with brace-free inputs that each hold a character outside A–Z and `_` and a valid SSO type, no table key's placeholder remains in a rendered plan |
| Template.Dashed | src/utils/template.ts:90 | every `:` and `.` becomes `-`, and nothing else changes |
| Template.IsoStamp | src/utils/template.ts:90 | the stamp is the first 19 characters (fewer for a shorter string) with no `:` or `.` left |
| Template.DefaultHtmlFilename | src/utils/template.ts:89-92 | no contract; specified by `DefaultHtmlFilenameShape` |
| Template.DefaultHtmlFilenameShape | src/utils/template.ts:89-92 | the name is `github-sso-setup-plan-<name>-`, the stamp, then `.html` |
| Template.IsoStampOfTimestamp | src/utils/template.ts:90 | for an ISO instant the stamp is `YYYY-MM-DDTHH-MM-SS` |
| Template.PlanPath | src/utils/template.ts:76-79 | a non-empty output path is used as given, else the default name in the working directory |
| Template.GenerateHtmlSetupPlan | src/utils/template.ts:45-85 | the plan is the selected template rendered with the table and converted under the plan title; a missing template gives the processing error |
| Azure.FindGitHubGalleryApp | src/services/azure.ts:170-178 | the first template with the exact gallery name; absent iff none has it |
| Azure.FindSigningCredential | src/services/azure.ts:93-95 | the first `Sign`/`AsymmetricX509Cert` credential; absent when there are no credentials or none matches |
| Azure.Pem | src/services/azure.ts:102-103 | the PEM text is the key between the header and footer lines |
| Azure.Dearmor | src/services/azure.ts:103 | no contract; the inverse of `Pem`, specified by `DearmorPem` and `PemDearmor` |
| Azure.DearmorPem | src/services/azure.ts:103 | stripping the PEM frame gives back the key |
| Azure.PemDearmor | src/services/azure.ts:103 | a text that strips to a key is that key's PEM |
| Azure.SamlSettingsPayload | src/services/azure.ts:62-72 | mode `saml`, two reply URLs and one identifier, all under `https://github.com/enterprises/<e>`; the exact URLs are stated by `SamlPayloadMatchesDotCom` |
| Azure.SamlPayloadMatchesDotCom | src/services/azure.ts:62-72 | on github.com the reply URLs are exactly the configured `/saml/consume` URL and then the Entity ID plus `/saml/acs`, and the identifier and logout URL are the SAML configuration's |
| Azure.SamlPayloadMissesGhe | src/services/azure.ts:62-72 | for a ghe.com enterprise the payload's identifier is never its Entity ID |
| Azure.ValidateEnterpriseAppResult | src/services/azure.ts:111-136 | success iff some principal's name starts with `GitHub`, reporting their number; a Graph failure becomes a failed result, never an error |
| Azure.CertificateOf | src/services/azure.ts:85-109 | Graph failure, unknown principal and missing signing credential each give the prefixed error; otherwise the first signing key as PEM |
| Azure.CertificateIsFirstSigningKey | src/services/azure.ts:93-105 | a downloaded certificate strips to the key of the first signing credential |
| Azure.ValidateSamlConfig | src/services/azure.ts:138-152 | always succeeds |
| Azure.ValidateCertificate | src/services/azure.ts:154-168 | always succeeds |
| Azure.WithGitHubApp | src/services/azure.ts:36-46 | instantiation adds one application and one principal with fresh ids, then sets the principal's homepage and notes |
| Azure.WithGitHubAppFresh | src/services/azure.ts:36-46 | the new ids were unused, the other principals are kept, and ids stay below the next free one |
| Azure.CreatedAppPassesValidation | src/services/azure.ts:39 | once the app exists, the enterprise-app check of the same directory succeeds |
| Azure.WithSamlSettings | src/services/azure.ts:74-76 | only the patched principal changes, and only its SAML settings |
| Azure.AzureService.CreateGitHubEnterpriseApp | src/services/azure.ts:26-57 | no gallery app or Graph failure: nothing created and a prefixed error; otherwise the objects are created, and the result carries the principal id, the tenant's SAML URL and the first organization's issuer, or the TypeError when there is no organization |
| Azure.AzureService.ConfigureSAMLSettings | src/services/azure.ts:59-83 | patches the principal's SAML settings; Graph failure or an unknown principal changes nothing and gives the prefixed error |
| Azure.AzureService.DownloadSAMLCertificate | src/services/azure.ts:85-109 | returns the certificate of the current directory |
| Azure.AzureService.ValidateEnterpriseApp | src/services/azure.ts:111-136 | returns the enterprise-app check of the current directory |
| GitHub.ValidateEnterpriseAccess | src/services/github.ts:18-34 | success iff the request returned data, naming the enterprise; a thrown request gives `Cannot access enterprise <slug>: <message>` |
| GitHub.TestSSOConfiguration | src/services/github.ts:52-76 | success iff data exists and `enabled` holds; otherwise `not enabled`, or `Error testing SSO: <message>` when the request threw |
| GitHub.Issues | src/services/github.ts:94-97 | only the three fixed issue texts, one per missing field, in the order SSO URL, issuer, certificate; empty iff all three are set |
| GitHub.ValidateSSOConfig | src/services/github.ts:78-116 | request error and absent data give `Error validating SSO config: ...`; disabled gives `not enabled` whatever the fields; enabled succeeds iff no issue, else `Configuration issues: ` and the issues joined by `, ` |
| GitHub.NothingConfigured | src/services/github.ts:94-105 | a configuration missing all three fields lists all three issues |
| GitHub.SamlPatchRequest | src/services/github.ts:39-46 | the patch uses `rsa-sha256` and `sha256` |
| GitHub.SamlPatchRoundTrip | src/services/github.ts:39-46 | the enterprise and the whole configuration (SSO URL, issuer from Entity ID, certificate unchanged) are read back from the patch |
| GitHub.SamlPatchInjective | src/services/github.ts:39-46 | distinct configurations give distinct patches |
| GitHub.ConfigureSAML | src/services/github.ts:36-50 | the request sent is `SamlPatchRequest` of the slug and configuration; succeeds iff that request did; a failure gets the `Failed to configure GitHub SAML: ` prefix |
| GitHub.CreateOrganization | src/services/github.ts:124-128 | always fails with `Organization creation not yet implemented` |
| Config.Merge | src/utils/config.ts:60 | each section present in the update replaces the whole sub-object; absent sections are kept |
| Config.WithCurrentEnterprise | src/utils/config.ts:44-47 | no contract; specified by `SetThenGet` and `SetReplacesWholesale` |
| Config.WithUpdate | src/utils/config.ts:57-63 | no contract; specified by `UpdateAbsentIsNoOp` and `UpdateMerges` |
| Config.WithToken | src/utils/config.ts:65-67 | no contract; specified by `TokenRoundTrip` |
| Config.WithoutAuth | src/utils/config.ts:73-75 | no contract; specified by `TokenRoundTrip` and `ClearAuthKeepsProfiles` |
| Config.WithoutProfile | src/utils/config.ts:80-89 | no contract; specified by `DeleteRemovesOnly` and `DeleteAfterSet` |
| Config.MergeLaws | src/utils/config.ts:60 | the empty update changes nothing, an update applied twice equals once, two updates compose into one |
| Config.SetThenGet | src/utils/config.ts:44-55 | after setting, the current enterprise and its profile are the ones set; other profiles and the token are unchanged |
| Config.SetReplacesWholesale | src/utils/config.ts:44-47 | a second set of the same profile leaves no trace of the first |
| Config.UpdateAbsentIsNoOp | src/utils/config.ts:57-63 | updating an absent profile changes nothing |
| Config.UpdateMerges | src/utils/config.ts:57-63 | updating a present profile stores its merge with the update; everything else is unchanged |
| Config.DeleteRemovesOnly | src/utils/config.ts:80-89 | deleting removes exactly that profile and clears the current enterprise iff it was the deleted one |
| Config.DeleteAfterSet | src/utils/config.ts:80-89 | deleting the profile just set removes it and leaves no current enterprise |
| Config.TokenRoundTrip | src/utils/config.ts:65-75 | the token set is the token read; clearing after setting equals clearing |
| Config.ClearAuthKeepsProfiles | src/utils/config.ts:73-75 | clearing removes the token only, and is idempotent |
| Config.ConfigManager.constructor | src/utils/config.ts:34-42 | the store opens with the persisted document, or with the defaults |
| Config.ConfigManager.SetCurrentEnterprise | src/utils/config.ts:44-47 | the new store is the set of the old one |
| Config.ConfigManager.GetCurrentEnterprise | src/utils/config.ts:49-51 | no contract; reads the store's current enterprise, which `SetThenGet` and `DeleteRemovesOnly` specify |
| Config.ConfigManager.GetEnterpriseConfig | src/utils/config.ts:53-55 | no contract; the stored profile or absent, which `SetThenGet` and `UpdateMerges` specify |
| Config.ConfigManager.UpdateEnterpriseConfig | src/utils/config.ts:57-63 | the new store is the update of the old one |
| Config.ConfigManager.SetGitHubToken | src/utils/config.ts:65-67 | the new store holds the token |
| Config.ConfigManager.GetGitHubToken | src/utils/config.ts:69-71 | no contract; reads the stored token, which `TokenRoundTrip` specifies |
| Config.ConfigManager.ClearAuth | src/utils/config.ts:73-75 | the new store has no token |
| Config.ConfigManager.GetAllProfiles | src/utils/config.ts:77-79 | no contract; reads the stored profiles |
| Config.ConfigManager.DeleteProfile | src/utils/config.ts:80-89 | the new store is the deletion from the old one |
| ValidateCommand.SelectValidation | src/commands/validate.ts:17-40 | stops without an enterprise (option, else stored current) or without its profile; otherwise the tenant is the domain option, else the profile's tenant, and the service tenant falls back to `common` |
| ValidateCommand.DomainOptionWins | src/commands/validate.ts:36-40 | a non-empty domain option is used for authentication and for the service |
| ValidateCommand.StoredEnterpriseSuffices | src/commands/validate.ts:17-40 | with a stored current enterprise and profile, the command proceeds without options |
| ValidateCommand.Classify | src/commands/validate.ts:84-96 | `pass` iff the test returned success, `error` iff it threw, `fail` otherwise, with the test's message |
| ValidateCommand.RunChecks | src/commands/validate.ts:80-99 | one record per check, in order; a throwing check does not stop the rest |
| ValidateCommand.RunValidationChecks | src/commands/validate.ts:64-100 | exactly three records, named in declaration order; the first reflects the enterprise-app check, the second and third are the classified stub results (both pass, with their messages) |
| ValidateCommand.AllPassedIffAppFound | src/commands/validate.ts:52-56 | for the service's checks, all pass iff the enterprise-app check succeeds |
| ValidateCommand.IconAndColorAgree | src/commands/validate.ts:106-107 | icon and colour each tell the three statuses apart, and pass pairs ✅ with green and fail pairs ❌ with red |
| ValidateCommand.Summary | src/commands/validate.ts:102-114 | one entry per result, with its colour, `<icon> <name>`, and the indented message only when it is non-empty |
| Auth.TenantIdOf | src/services/auth.ts:86-95 | absent or empty gives `common`; a domain containing `.onmicrosoft.com` is kept; any other gets it appended |
| Auth.AzureDeviceFlowTenant | src/services/auth.ts:86-95 | the reassigned local ends as the normalised tenant |
| Auth.TenantIdIsOnMicrosoft | src/services/auth.ts:86-95 | every normalised tenant is `common` or contains `.onmicrosoft.com` |
| Auth.TenantIdIdempotent | src/services/auth.ts:86-95 | normalising a non-empty domain twice equals normalising it once |
| Auth.BareAndFullNamesAgree | src/services/auth.ts:90-94 | a bare tenant name and its full name select the same tenant |
| Auth.AuthenticateAzure | src/services/auth.ts:70-121 | an existing CLI session is used; otherwise the device flow targets the normalised tenant, and a rejected device-code login is the error, with its message unchanged |
| Auth.AuthService.AuthenticateGitHub | src/services/auth.ts:14-69 | a valid stored token is returned with the store untouched; else a valid device-flow token is stored and returned; else the PAT path decides; a returned token is valid and stored |
| Auth.AuthService.PromptForGitHubPAT | src/services/auth.ts:123-154 | the typed token is stored and returned iff it validates; otherwise the invalid-token error and an unchanged store |
| Auth.AuthService.CheckGitHubAuth | src/services/auth.ts:196-199 | true iff a non-empty token is stored and validates; false without a token |
| Auth.AuthService.Logout | src/services/auth.ts:211-214 | the auth section is cleared and nothing else |
| Auth.AuthService.GetStoredGitHubToken | src/services/auth.ts:216-218 | no contract; the token `ConfigManager.GetGitHubToken` reads |
| Auth.AuthService.AuthenticateWithPAT | src/services/auth.ts:220-226 | behaves as the PAT prompt |
| Auth.LoginThenLogout | src/services/auth.ts:196-214 | after a successful login, the auth check passes; after logout it fails |
| WebServer.GeneratePlan | src/web-server.ts:305-363 | 400 `Missing required fields` iff a required field is missing or empty; then `Invalid SSO type`, then `Invalid environment type`; the generator gets the domain or `common`; its failure gives 500 with the prefix; success downloads the HTML under the default file name |
| WebServer.SsoTypeCheckedFirst | src/web-server.ts:315-321 | a request wrong in both type fields is refused for its SSO type |
| WebServer.DomainDefaultsToCommon | src/web-server.ts:328-341 | an absent or empty domain is handled exactly as `common` |
| WebServer.DownloadNameShape | src/web-server.ts:349-355 | the download name has the `github-sso-setup-plan-<name>-<stamp>.html` shape of the default file name |

## Left out

- The rest of the repository. `src/index.ts`, `src/commands/auth.ts` and `test-cli.js` are not part of this model. They hold prompts, spinners, command wiring and process control, and dispatch to the modelled operations.
- `src/commands/setup.ts` is not part of this model. Besides its prompts and spinners it has logic of its own, which the model does not capture:
  - the prompt's check that the enterprise name is non-empty (`src/commands/setup.ts:62`);
  - the prompt's check that the tenant domain is non-empty and contains `.` (`src/commands/setup.ts:69-73`);
  - storing the profile with status `in-progress` before setup (`src/commands/setup.ts:97-101`) and updating it to `configured`, method `saml` and the time of configuration after it (`src/commands/setup.ts:170-176`).
- All network protocols: HTTP, Microsoft Graph, the GitHub REST API, OAuth device flows and Azure identity. Replies and outcomes are parameters.
  - `validateGitHubToken` is one yes/no judgement per token; its four requests and log lines are not modelled.
  - `checkAzureAuth` only asks whether an Azure CLI session exists. That is an input here (`AuthenticateAzure`'s `cliSessionAvailable`), so it has no member of its own.
- `getEnterpriseInfo` and `createTeam` (`src/services/github.ts:117-122`, `130-137`) pass a request through unchanged and are not modelled.
- `configureSAMLClaims` builds a policy object that is never sent; it has no effect on the directory.
- The instantiation request posts to the literal `{template-id}` path and never uses the gallery app found. It is modelled only as "a new application and principal".
- Graph object ids are natural numbers handed out from a counter.
- Graph's failures are a single directory-wide fault message.
- Graph's `startswith` filter is modelled as case-sensitive.
- Graph and REST paging are not modelled.
- File system, console output, colours and spinners are left out:
  - reading and writing the plan file;
  - the desktop path (`getDesktopPath`);
  - the configuration file's location (`getConfigPath`);
  - loading and saving the persisted store.
- Markdown-to-HTML conversion and the HTML and CSS literals. `toHtml` is a parameter.
- `generateHtmlSetupPlanContent`, which the web server calls, is not defined in `src/utils/template.ts`. It is a parameter of `WebServer.GeneratePlan`.
- Application Insights: only the event's fields are modelled, and whether telemetry is on is a parameter.
- The clock: `new Date()` renderings are parameters (`localeDate`, `iso`, `eventIso`, `fileIso`).
- `String.prototype.replace` `$` patterns: a value is inserted literally. The placeholder is compiled as a regular expression (`new RegExp(placeholder, 'g')`); the model matches it literally, so keys are assumed to hold no regular-expression metacharacters. The setup-plan keys are upper-case words and `_` (`Template.SetupPlanKeyWords`).
- `toUpperCase` is modelled on ASCII letters only.
- `path.join` normalisation: a path is modelled as the directory, `/`, then the name.
- The configuration library's dot-path handling: an enterprise name holding `.` is a plain map key.
- `Object.entries` puts integer-like keys first. The table's keys are all upper-case words, so its order is the source order.
- Template.SubstituteLeavesNoPlaceholder: proved only when no value can form a table key's placeholder (`InertValues`). Without that condition the property is false, as `Template.LaterValueReintroducesPlaceholder` shows. `Template.SetupPlanLeavesNoPlaceholder` discharges the condition for brace-free inputs that each hold a character outside A–Z and `_` (every accepted slug does, `SlugIsSafeValue`) and a valid SSO type. Brace-free alone is not enough: the enterprise name `DATE` turns `{{{{ENTERPRISE_NAME}}}}` into `{{DATE}}`, which survives.
- ValidateCommand.SelectValidation: a bare `--domain` flag, which the option parser hands over as `true`, is not modelled. The domain option is a string or absent.
- WebServer.GeneratePlan: body fields are taken to be strings or absent; JSON numbers or objects in those fields are not modelled.
- Auth.LoginThenLogout: assumes the typed token and the device-flow token are non-empty. The prompt refuses an empty token, and GitHub issues no empty token.
