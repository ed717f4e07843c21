/**
 * The CLI's persistent store: the current enterprise, one profile per enterprise and
 * the stored GitHub token. The store is held in memory; each operation is a pure
 * function on `Store`, and `ConfigManager` is the object whose methods apply them to
 * its `config` field.
 */
module Config {
  import opened Common

  datatype AuthMethod = Token | App | Device
  datatype SsoMethod = Saml | Oidc
  datatype SsoStatus = NotConfigured | InProgress | Configured | Error

  datatype GitHubSection = GitHubSection(enterpriseSlug: string, apiUrl: Option<string>, authMethod: Option<AuthMethod>)
  datatype AzureSection = AzureSection(tenantId: Option<string>, tenantDomain: string, subscriptionId: Option<string>)
  datatype SsoSection = SsoSection(ssoMethod: Option<SsoMethod>, status: SsoStatus, lastConfigured: Option<string>)

  datatype EnterpriseConfig = EnterpriseConfig(github: GitHubSection, azure: AzureSection, sso: SsoSection)

  /** A `Partial<EnterpriseConfig>`: each top-level section is present or not. */
  datatype ConfigUpdate = ConfigUpdate(github: Option<GitHubSection>, azure: Option<AzureSection>, sso: Option<SsoSection>)

  /**
   * The stored document. Profile names are plain map keys (a name holding a dot is
   * not split into a path); the `auth` section only ever holds the GitHub token.
   */
  datatype Store = Store(currentEnterprise: Option<string>, profiles: map<string, EnterpriseConfig>, githubToken: Option<string>)

  /** The defaults of a new store: no current enterprise, no profiles, empty `auth`. */
  const Defaults := Store(None, map[], None)

  function Pick<T>(update: Option<T>, current: T): T
  {
    match update
    case Some(v) => v
    case None => current
  }

  /** `{ ...current, ...updates }`: a shallow merge, where a present section replaces the whole sub-object. */
  function Merge(current: EnterpriseConfig, updates: ConfigUpdate): (r: EnterpriseConfig)
    ensures updates.github.Some? ==> r.github == updates.github.value
    ensures updates.github.None? ==> r.github == current.github
    ensures updates.azure.Some? ==> r.azure == updates.azure.value
    ensures updates.azure.None? ==> r.azure == current.azure
    ensures updates.sso.Some? ==> r.sso == updates.sso.value
    ensures updates.sso.None? ==> r.sso == current.sso
  {
    EnterpriseConfig(Pick(updates.github, current.github), Pick(updates.azure, current.azure), Pick(updates.sso, current.sso))
  }

  /** Two successive updates are one update whose sections come from the later one where it has them. */
  function Then(first: ConfigUpdate, second: ConfigUpdate): ConfigUpdate
  {
    ConfigUpdate(
      if second.github.Some? then second.github else first.github,
      if second.azure.Some? then second.azure else first.azure,
      if second.sso.Some? then second.sso else first.sso)
  }

  lemma MergeLaws(c: EnterpriseConfig, u: ConfigUpdate, v: ConfigUpdate)
    ensures Merge(c, ConfigUpdate(None, None, None)) == c
    ensures Merge(Merge(c, u), u) == Merge(c, u)
    ensures Merge(Merge(c, u), v) == Merge(c, Then(u, v))
  {
  }

  // ---------------------------------------------------------------- the operations on a store

  function WithCurrentEnterprise(s: Store, name: string, config: EnterpriseConfig): Store
  {
    s.(currentEnterprise := Some(name)).(profiles := s.profiles[name := config])
  }

  function WithUpdate(s: Store, name: string, updates: ConfigUpdate): Store
  {
    if name in s.profiles then s.(profiles := s.profiles[name := Merge(s.profiles[name], updates)]) else s
  }

  function WithToken(s: Store, token: string): Store
  {
    s.(githubToken := Some(token))
  }

  function WithoutAuth(s: Store): Store
  {
    s.(githubToken := None)
  }

  function WithoutProfile(s: Store, name: string): Store
  {
    var t := s.(profiles := s.profiles - {name});
    if t.currentEnterprise == Some(name) then t.(currentEnterprise := None) else t
  }

  /** The profiles other than `name` are the same in both stores. */
  ghost predicate OthersUnchanged(before: map<string, EnterpriseConfig>, after: map<string, EnterpriseConfig>, name: string)
  {
    forall m :: m != name ==> (m in after <==> m in before) && (m in after ==> after[m] == before[m])
  }

  // ---------------------------------------------------------------- properties

  /** After setting, the profile read back is the one set, it is current, and nothing else moved. */
  lemma SetThenGet(s: Store, name: string, config: EnterpriseConfig)
    ensures var t := WithCurrentEnterprise(s, name, config);
            t.currentEnterprise == Some(name) && name in t.profiles && t.profiles[name] == config &&
            OthersUnchanged(s.profiles, t.profiles, name) && t.githubToken == s.githubToken
  {
  }

  /** Setting replaces a profile wholesale: the earlier value leaves no trace. */
  lemma SetReplacesWholesale(s: Store, name: string, c1: EnterpriseConfig, c2: EnterpriseConfig)
    ensures WithCurrentEnterprise(WithCurrentEnterprise(s, name, c1), name, c2) == WithCurrentEnterprise(s, name, c2)
  {
  }

  lemma UpdateAbsentIsNoOp(s: Store, name: string, updates: ConfigUpdate)
    requires name !in s.profiles
    ensures WithUpdate(s, name, updates) == s
  {
  }

  lemma UpdateMerges(s: Store, name: string, updates: ConfigUpdate)
    requires name in s.profiles
    ensures var t := WithUpdate(s, name, updates);
            name in t.profiles && t.profiles[name] == Merge(s.profiles[name], updates) &&
            OthersUnchanged(s.profiles, t.profiles, name) &&
            t.currentEnterprise == s.currentEnterprise && t.githubToken == s.githubToken
  {
  }

  /** Deleting removes exactly that profile and clears the current enterprise iff it was the one deleted. */
  lemma DeleteRemovesOnly(s: Store, name: string)
    ensures var t := WithoutProfile(s, name);
            name !in t.profiles && OthersUnchanged(s.profiles, t.profiles, name) &&
            (s.currentEnterprise == Some(name) ==> t.currentEnterprise.None?) &&
            (s.currentEnterprise != Some(name) ==> t.currentEnterprise == s.currentEnterprise) &&
            t.githubToken == s.githubToken
  {
  }

  /** Deleting the profile just set undoes the set, except that the previous current enterprise is gone too. */
  lemma DeleteAfterSet(s: Store, name: string, config: EnterpriseConfig)
    ensures WithoutProfile(WithCurrentEnterprise(s, name, config), name) ==
            Store(None, s.profiles - {name}, s.githubToken)
  {
  }

  lemma TokenRoundTrip(s: Store, token: string)
    ensures WithToken(s, token).githubToken == Some(token)
    ensures WithoutAuth(WithToken(s, token)) == WithoutAuth(s)
  {
  }

  /** Clearing the auth section removes the token only, and doing it twice is doing it once. */
  lemma ClearAuthKeepsProfiles(s: Store)
    ensures var t := WithoutAuth(s);
            t.githubToken.None? && t.profiles == s.profiles && t.currentEnterprise == s.currentEnterprise &&
            WithoutAuth(t) == t
  {
  }

  // ---------------------------------------------------------------- the object

  class ConfigManager {
    var config: Store

    /** Opens the store: the persisted document if there is one, else a new one holding the defaults. */
    constructor(persisted: Option<Store>)
      ensures config == (if persisted.Some? then persisted.value else Defaults)
    {
      config := if persisted.Some? then persisted.value else Defaults;
    }

    method SetCurrentEnterprise(enterpriseName: string, enterpriseConfig: EnterpriseConfig)
      modifies this
      ensures config == WithCurrentEnterprise(old(config), enterpriseName, enterpriseConfig)
    {
      config := config.(currentEnterprise := Some(enterpriseName));
      config := config.(profiles := config.profiles[enterpriseName := enterpriseConfig]);
    }

    function GetCurrentEnterprise(): Option<string>
      reads this
    {
      config.currentEnterprise
    }

    function GetEnterpriseConfig(enterpriseName: string): Option<EnterpriseConfig>
      reads this
    {
      if enterpriseName in config.profiles then Some(config.profiles[enterpriseName]) else None
    }

    method UpdateEnterpriseConfig(enterpriseName: string, updates: ConfigUpdate)
      modifies this
      ensures config == WithUpdate(old(config), enterpriseName, updates)
    {
      var currentConfig := GetEnterpriseConfig(enterpriseName);
      if currentConfig.Some? {
        var updatedConfig := Merge(currentConfig.value, updates);
        config := config.(profiles := config.profiles[enterpriseName := updatedConfig]);
      }
    }

    method SetGitHubToken(token: string)
      modifies this
      ensures config == WithToken(old(config), token)
    {
      config := config.(githubToken := Some(token));
    }

    function GetGitHubToken(): Option<string>
      reads this
    {
      config.githubToken
    }

    method ClearAuth()
      modifies this
      ensures config == WithoutAuth(old(config))
    {
      config := config.(githubToken := None);
    }

    function GetAllProfiles(): map<string, EnterpriseConfig>
      reads this
    {
      config.profiles
    }

    /** Deletes from a copy of the profiles, writes the copy back, then clears a matching current enterprise. */
    method DeleteProfile(enterpriseName: string)
      modifies this
      ensures config == WithoutProfile(old(config), enterpriseName)
    {
      var profiles := config.profiles;
      profiles := profiles - {enterpriseName};
      config := config.(profiles := profiles);
      if GetCurrentEnterprise() == Some(enterpriseName) {
        config := config.(currentEnterprise := None);
      }
    }
  }
}
