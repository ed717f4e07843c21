/**
 * The authentication service: the Entra tenant a device-flow login targets, and the
 * decisions about which GitHub token to use and when to store it. Whether GitHub
 * accepts a token, the outcome of the GitHub device flow and the token typed at the
 * prompt are inputs.
 */
module Auth {
  import opened Common
  import Config

  // ---------------------------------------------------------------- Entra tenant

  const OnMicrosoft := ".onmicrosoft.com"

  /** The tenant a device-flow login targets: `common` without a domain, else the domain as a full `onmicrosoft.com` name. */
  function TenantIdOf(tenantDomain: Option<string>): (tenantId: string)
    ensures !Truthy(tenantDomain) ==> tenantId == "common"
    ensures Truthy(tenantDomain) && Contains(tenantDomain.value, OnMicrosoft) ==> tenantId == tenantDomain.value
    ensures Truthy(tenantDomain) && !Contains(tenantDomain.value, OnMicrosoft) ==>
              tenantId == tenantDomain.value + OnMicrosoft
  {
    if !Truthy(tenantDomain) then "common"
    else if Contains(tenantDomain.value, OnMicrosoft) then tenantDomain.value
    else tenantDomain.value + OnMicrosoft
  }

  /** The normalisation of `azureDeviceFlow`, which reassigns a local that starts out as `common`. */
  method AzureDeviceFlowTenant(tenantDomain: Option<string>) returns (tenantId: string)
    ensures tenantId == TenantIdOf(tenantDomain)
  {
    tenantId := "common";
    if Truthy(tenantDomain) {
      if Contains(tenantDomain.value, OnMicrosoft) {
        tenantId := tenantDomain.value;
      } else {
        tenantId := tenantDomain.value + OnMicrosoft;
      }
    }
  }

  /** Every domain normalises to a name holding `.onmicrosoft.com`, except the default `common`. */
  lemma TenantIdIsOnMicrosoft(tenantDomain: Option<string>)
    ensures TenantIdOf(tenantDomain) == "common" || Contains(TenantIdOf(tenantDomain), OnMicrosoft)
  {
    if Truthy(tenantDomain) && !Contains(tenantDomain.value, OnMicrosoft) {
      ContainsSuffix(tenantDomain.value, OnMicrosoft);
    }
  }

  /** Normalising a non-empty domain twice gives the same tenant as normalising it once. */
  lemma TenantIdIdempotent(domain: string)
    requires domain != ""
    ensures TenantIdOf(Some(TenantIdOf(Some(domain)))) == TenantIdOf(Some(domain))
  {
    TenantIdIsOnMicrosoft(Some(domain));
    var t := TenantIdOf(Some(domain));
    assert t != "common" by {
      if !Contains(domain, OnMicrosoft) {
        assert |t| == |domain| + |OnMicrosoft| > |"common"|;
      } else {
        assert Contains(t, OnMicrosoft);
        var i :| 0 <= i <= |t| - |OnMicrosoft| && OccursAt(t, OnMicrosoft, i);
        assert |t| >= 16;
      }
    }
  }

  /** A bare tenant name and its full `onmicrosoft.com` name select the same tenant. */
  lemma BareAndFullNamesAgree(name: string)
    requires name != "" && !Contains(name, OnMicrosoft)
    ensures TenantIdOf(Some(name)) == TenantIdOf(Some(name + OnMicrosoft)) == name + OnMicrosoft
  {
    ContainsSuffix(name, OnMicrosoft);
  }

  /** The credential `authenticateAzure` settles on: an existing CLI session, else a device-code login. */
  datatype AzureCredential = CliCredential | DeviceCodeCredential(tenantId: string)

  /**
   * `deviceLogin` gives, for a tenant, the message `getToken` rejects with when the
   * device-code login is not completed there, or nothing when it succeeds. The
   * rejection leaves `authenticateAzure` unchanged.
   */
  function AuthenticateAzure(cliSessionAvailable: bool, tenantDomain: Option<string>,
                             deviceLogin: string -> Option<string>): (r: Result<AzureCredential, string>)
    ensures cliSessionAvailable ==> r == Ok(CliCredential)
    ensures r.Err? <==> !cliSessionAvailable && deviceLogin(TenantIdOf(tenantDomain)).Some?
    ensures r.Err? ==> r.error == deviceLogin(TenantIdOf(tenantDomain)).value
    ensures !cliSessionAvailable && r.Ok? ==> r.value == DeviceCodeCredential(TenantIdOf(tenantDomain))
  {
    if cliSessionAvailable then Ok(CliCredential)
    else
      var tenantId := TenantIdOf(tenantDomain);
      match deviceLogin(tenantId)
      case Some(msg) => Err(msg)
      case None => Ok(DeviceCodeCredential(tenantId))
  }

  // ---------------------------------------------------------------- GitHub tokens

  const InvalidPatMessage := "Invalid GitHub token or insufficient permissions. Please check the token has enterprise scopes."

  class AuthService {
    const configManager: Config.ConfigManager
    /** Whether GitHub accepts a token with the scopes the tool needs (`validateGitHubToken`). */
    const isValid: string -> bool

    constructor(persisted: Option<Config.Store>, isValid: string -> bool)
      ensures configManager.config == (if persisted.Some? then persisted.value else Config.Defaults)
      ensures this.isValid == isValid
    {
      configManager := new Config.ConfigManager(persisted);
      this.isValid := isValid;
    }

    /** The stored token is reused when it exists and still validates. */
    predicate CanReuse(store: Config.Store)
    {
      Truthy(store.githubToken) && isValid(store.githubToken.value)
    }

    /**
     * `authenticateGitHub`: reuse a valid stored token; else run the device flow and
     * keep its token if it validates; else (the device flow failed or its token was
     * refused) fall back to the token typed at the prompt.
     */
    method AuthenticateGitHub(deviceFlow: Result<string, string>, patInput: string) returns (r: Result<string, string>)
      modifies configManager
      ensures CanReuse(old(configManager.config)) ==>
                r == Ok(old(configManager.config).githubToken.value) && configManager.config == old(configManager.config)
      ensures !CanReuse(old(configManager.config)) && deviceFlow.Ok? && isValid(deviceFlow.value) ==>
                r == Ok(deviceFlow.value) && configManager.config == Config.WithToken(old(configManager.config), deviceFlow.value)
      ensures !CanReuse(old(configManager.config)) && !(deviceFlow.Ok? && isValid(deviceFlow.value)) ==>
                (if isValid(patInput) then r == Ok(patInput) && configManager.config == Config.WithToken(old(configManager.config), patInput)
                 else r == Err(InvalidPatMessage) && configManager.config == old(configManager.config))
      ensures r.Ok? ==> isValid(r.value) && configManager.config.githubToken == Some(r.value)
    {
      var existingToken := configManager.GetGitHubToken();
      if Truthy(existingToken) && isValid(existingToken.value) {
        return Ok(existingToken.value);
      }
      if deviceFlow.Ok? && isValid(deviceFlow.value) {
        configManager.SetGitHubToken(deviceFlow.value);
        return Ok(deviceFlow.value);
      }
      r := PromptForGitHubPAT(patInput);
    }

    /** `promptForGitHubPAT`: the token is stored only if it validates; otherwise the store is untouched. */
    method PromptForGitHubPAT(token: string) returns (r: Result<string, string>)
      modifies configManager
      ensures isValid(token) ==> r == Ok(token) && configManager.config == Config.WithToken(old(configManager.config), token)
      ensures !isValid(token) ==> r == Err(InvalidPatMessage) && configManager.config == old(configManager.config)
    {
      if isValid(token) {
        configManager.SetGitHubToken(token);
        return Ok(token);
      }
      return Err(InvalidPatMessage);
    }

    /** `checkGitHubAuth`: without a stored token the answer is false and no validation happens. */
    function CheckGitHubAuth(): (r: bool)
      reads configManager
      ensures r <==> CanReuse(configManager.config)
      ensures !Truthy(configManager.config.githubToken) ==> !r
    {
      var token := configManager.GetGitHubToken();
      if Truthy(token) then isValid(token.value) else false
    }

    /** `logout` clears the auth section and nothing else. */
    method Logout()
      modifies configManager
      ensures configManager.config == Config.WithoutAuth(old(configManager.config))
    {
      configManager.ClearAuth();
    }

    function GetStoredGitHubToken(): Option<string>
      reads configManager
    {
      configManager.GetGitHubToken()
    }

    /** `authenticateWithPAT` goes straight to the prompt. */
    method AuthenticateWithPAT(patInput: string) returns (r: Result<string, string>)
      modifies configManager
      ensures isValid(patInput) ==> r == Ok(patInput) && configManager.config == Config.WithToken(old(configManager.config), patInput)
      ensures !isValid(patInput) ==> r == Err(InvalidPatMessage) && configManager.config == old(configManager.config)
    {
      r := PromptForGitHubPAT(patInput);
    }
  }

  /**
   * After a successful login, checking the stored authentication succeeds; after
   * logging out it fails. The prompt refuses an empty token, and no token GitHub
   * issues is empty.
   */
  method LoginThenLogout(auth: AuthService, deviceFlow: Result<string, string>, patInput: string)
      returns (beforeLogout: bool, afterLogout: bool)
    requires patInput != "" && (deviceFlow.Ok? ==> deviceFlow.value != "")
    modifies auth.configManager
    ensures afterLogout == false
    ensures beforeLogout <==> (auth.isValid(patInput) || auth.CanReuse(old(auth.configManager.config)) ||
                              (deviceFlow.Ok? && auth.isValid(deviceFlow.value)))
  {
    var r := auth.AuthenticateGitHub(deviceFlow, patInput);
    beforeLogout := auth.CheckGitHubAuth();
    auth.Logout();
    afterLogout := auth.CheckGitHubAuth();
  }
}
