/** The validation of one realm, as far as a run relies on it (internal/config/config.go). */
module RealmValidation {
  import opened ConfigChecks
  import opened Lists
  import opened RealmConfigs
  import opened Reconcile
  import opened Text
  import C = ClientScopes
  import ConfigMaps
  import FlowConfig
  import GroupConfigs
  import I = IdentityProviders
  import O = Organizations
  import Users

  function ScopeNames(scopes: seq<ScopeConfig>): seq<string> {
    seq(|scopes|, i requires 0 <= i < |scopes| => scopes[i].name)
  }

  function ClientIds(cs: seq<FullClient>): seq<string> {
    seq(|cs|, i requires 0 <= i < |cs| => cs[i].base.clientId)
  }

  function Usernames(us: seq<Users.UserConfig>): seq<string> {
    seq(|us|, i requires 0 <= i < |us| => us[i].username)
  }

  function Aliases(idps: seq<I.IdpConfig>): seq<string> {
    seq(|idps|, i requires 0 <= i < |idps| => idps[i].alias)
  }

  /** Usable, and no two alike. */
  predicate NamesOk(names: seq<string>) {
    AllUsable(names) && Distinct(names)
  }

  /** Roles, wherever a config names some. */
  predicate RoleSetOk(roles: Option<Roles>) {
    roles.Some? ==> NullFree(roles.value.realm) && forall e :: e in roles.value.clients ==> EntryOk(e)
  }

  predicate EntryOk(e: (string, seq<string>)) {
    !HasNull(e.0) && NullFree(e.1)
  }

  /** The client-level bindings the server knows. */
  const FLOW_BINDINGS := {"browser", "direct_grant"}

  predicate OverridesOk(overrides: map<string, string>) {
    forall b :: b in overrides ==> b in FLOW_BINDINGS && Usable(overrides[b])
  }

  /** A permission block grants something to someone: the tool never deletes. */
  predicate PermissionsOk(scopes: Option<map<string, seq<string>>>) {
    scopes.Some? ==>
      scopes.value != map[] &&
      forall scope :: scope in scopes.value ==>
        Usable(scope) && scopes.value[scope] != [] && NamesOk(scopes.value[scope])
  }

  predicate ClientOk(c: FullClient) {
    && NullFree(c.defaultScopes) && NullFree(c.optionalScopes) && ClientAccepted(c) && OverridesOk(c.flowOverrides)
    && NamesOk(c.base.roles) && RoleSetOk(c.scopeMappings) && RoleSetOk(c.serviceAccountRoles)
    && PermissionsOk(c.permissions)
  }

  predicate ScopeOk(c: ScopeConfig) {
    c.scopeType != C.Unknown && RoleSetOk(c.scopeMappings)
  }

  predicate UserOk(u: Users.UserConfig) {
    RoleSetOk(u.roles) && (forall g :: g in u.groups ==> ConfigMaps.Trim(g) != "") && NullFree(u.groups)
  }

  /** An alias is a segment of a URL path, and a provider has a type. */
  predicate ProviderOk(idp: I.IdpConfig) {
    && '/' !in idp.alias && idp.providerId != "" && NullFree(ProviderTexts(idp)) && ValidAttributes(idp.config)
  }

  function ProviderTexts(idp: I.IdpConfig): seq<string> {
    [idp.displayName, idp.providerId, idp.firstBrokerLoginFlowAlias, idp.postBrokerLoginFlowAlias]
  }

  /** The domain a provider's config names. */
  const ORG_DOMAIN := "kc.org.domain"

  predicate DomainOk(idp: I.IdpConfig, domains: seq<string>) {
    ORG_DOMAIN in idp.config && idp.config[ORG_DOMAIN] != "" ==> idp.config[ORG_DOMAIN] in domains
  }

  /** A provider that an organization claims names a domain of that organization, or none. */
  predicate DomainsAgree(idps: seq<I.IdpConfig>, os: seq<O.Org>) {
    forall i, j :: 0 <= i < |idps| && 0 <= j < |os| && idps[i].alias in os[j].identityProviders ==>
      DomainOk(idps[i], os[j].domains)
  }

  /** The realm every server comes with is provisioned by other means. */
  const MASTER := "master"

  /** What a valid config may declare as a realm, flows included. */
  predicate RealmOk(r: Realm, flows: seq<FlowConfig.Flow>, organizationsEnabled: bool) {
    && Usable(r.name) && r.name != MASTER
    && NamesOk(ScopeNames(r.scopes)) && (forall i :: 0 <= i < |r.scopes| ==> ScopeOk(r.scopes[i]))
    && NamesOk(ClientIds(r.clients)) && (forall i :: 0 <= i < |r.clients| ==> ClientOk(r.clients[i]))
    && NamesOk(r.roles) && NamesOk(Usernames(r.users)) && (forall i :: 0 <= i < |r.users| ==> UserOk(r.users[i]))
    && GroupConfigs.Acceptable(r.groups) && O.OrganizationsOk(organizationsEnabled, r.organizations)
    && FlowConfig.AcceptableFlows(flows)
    && NamesOk(Aliases(r.providers)) && (forall i :: 0 <= i < |r.providers| ==> ProviderOk(r.providers[i]))
    && DomainsAgree(r.providers, r.organizations)
  }

  /** A valid realm is one a run can rely on. */
  lemma ValidIsAccepted(r: Realm, flows: seq<FlowConfig.Flow>, organizationsEnabled: bool)
    requires RealmOk(r, flows, organizationsEnabled)
    ensures Accepted(r)
  {
    assert forall i :: 0 <= i < |r.scopes| ==> ScopeNames(r.scopes)[i] == r.scopes[i].name;
    assert forall i :: 0 <= i < |r.clients| ==> ClientIds(r.clients)[i] == r.clients[i].base.clientId;
    assert forall i :: 0 <= i < |r.users| ==> Usernames(r.users)[i] == r.users[i].username;
    assert forall i :: 0 <= i < |r.providers| ==> Aliases(r.providers)[i] == r.providers[i].alias;
    OrganizationsClaim(organizationsEnabled, r.organizations);
  }

  method ValidateRoleSet(roles: Option<Roles>) returns (ok: bool)
    ensures ok <==> RoleSetOk(roles)
  {
    if roles.None? {
      return true;
    }
    ok := ScanSliceNullBytes(roles.value.realm);
    if !ok {
      return;
    }
    var entries := roles.value.clients;
    for i := 0 to |entries|
      invariant forall j :: 0 <= j < i ==> EntryOk(entries[j])
    {
      ok := ScanSliceNullBytes(entries[i].1);
      if HasNull(entries[i].0) || !ok {
        assert entries[i] in entries;
        return false;
      }
    }
    ok := true;
  }

  method ValidateClientScopes(scopes: seq<ScopeConfig>) returns (ok: bool)
    ensures ok <==> NamesOk(ScopeNames(scopes)) && forall i :: 0 <= i < |scopes| ==> ScopeOk(scopes[i])
  {
    ok := CheckDistinct(ScopeNames(scopes));
    if !ok {
      return;
    }
    for i := 0 to |scopes|
      invariant forall j :: 0 <= j < i ==> ScopeOk(scopes[j])
    {
      ok := ValidateRoleSet(scopes[i].scopeMappings);
      if scopes[i].scopeType == C.Unknown || !ok {
        return false;
      }
    }
    ok := true;
  }

  method ValidateOverrides(overrides: map<string, string>) returns (ok: bool)
    ensures ok <==> OverridesOk(overrides)
  {
    var rest := overrides.Keys;
    while rest != {}
      invariant rest <= overrides.Keys
      invariant forall b :: b in overrides.Keys - rest ==> b in FLOW_BINDINGS && Usable(overrides[b])
      decreases rest
    {
      var b :| b in rest;
      if b !in FLOW_BINDINGS || overrides[b] == "" || HasNull(overrides[b]) {
        return false;
      }
      rest := rest - {b};
    }
    ok := true;
  }

  method ValidateManagementPermissions(scopes: Option<map<string, seq<string>>>) returns (ok: bool)
    ensures ok <==> PermissionsOk(scopes)
  {
    if scopes.None? {
      return true;
    }
    var granted := scopes.value;
    if |granted| == 0 {
      return false;
    }
    var rest := granted.Keys;
    while rest != {}
      invariant rest <= granted.Keys
      invariant forall n :: n in granted.Keys - rest ==> Usable(n) && granted[n] != [] && NamesOk(granted[n])
      decreases rest
    {
      var n :| n in rest;
      if n == "" || HasNull(n) || |granted[n]| == 0 {
        return false;
      }
      ok := CheckDistinct(granted[n]);
      if !ok {
        return;
      }
      rest := rest - {n};
    }
    ok := true;
  }

  method ValidateClient(c: FullClient) returns (ok: bool)
    ensures ok <==> ClientOk(c)
  {
    var defaultsOk := ScanSliceNullBytes(c.defaultScopes);
    var optionalsOk := ScanSliceNullBytes(c.optionalScopes);
    var apart := C.ValidateDistinctClientScopes(c.defaultScopes, c.optionalScopes);
    if !defaultsOk || !optionalsOk || !apart {
      return false;
    }
    ok := ValidateOverrides(c.flowOverrides);
    if !ok {
      return;
    }
    ok := CheckDistinct(c.base.roles);
    if !ok {
      return;
    }
    ok := ValidateRoleSet(c.scopeMappings);
    if !ok {
      return;
    }
    if c.serviceAccountRoles.Some? && !c.base.serviceAccount {
      return false;
    }
    ok := ValidateRoleSet(c.serviceAccountRoles);
    if !ok {
      return;
    }
    ok := ValidateManagementPermissions(c.permissions);
  }

  method ValidateClients(cs: seq<FullClient>) returns (ok: bool)
    ensures ok <==> NamesOk(ClientIds(cs)) && forall i :: 0 <= i < |cs| ==> ClientOk(cs[i])
  {
    ok := CheckDistinct(ClientIds(cs));
    if !ok {
      return;
    }
    for i := 0 to |cs|
      invariant forall j :: 0 <= j < i ==> ClientOk(cs[j])
    {
      ok := ValidateClient(cs[i]);
      if !ok {
        return;
      }
    }
    ok := true;
  }

  method ValidateUser(u: Users.UserConfig) returns (ok: bool)
    ensures ok <==> UserOk(u)
  {
    ok := ValidateRoleSet(u.roles);
    if !ok {
      return;
    }
    for i := 0 to |u.groups|
      invariant forall j :: 0 <= j < i ==> ConfigMaps.Trim(u.groups[j]) != ""
    {
      if ConfigMaps.Trim(u.groups[i]) == "" {
        assert u.groups[i] in u.groups;
        return false;
      }
    }
    ok := ScanSliceNullBytes(u.groups);
  }

  method ValidateUsers(us: seq<Users.UserConfig>) returns (ok: bool)
    ensures ok <==> NamesOk(Usernames(us)) && forall i :: 0 <= i < |us| ==> UserOk(us[i])
  {
    ok := CheckDistinct(Usernames(us));
    if !ok {
      return;
    }
    for i := 0 to |us|
      invariant forall j :: 0 <= j < i ==> UserOk(us[j])
    {
      ok := ValidateUser(us[i]);
      if !ok {
        return;
      }
    }
    ok := true;
  }

  method ValidateIdentityProviders(idps: seq<I.IdpConfig>) returns (ok: bool)
    ensures ok <==> NamesOk(Aliases(idps)) && forall i :: 0 <= i < |idps| ==> ProviderOk(idps[i])
  {
    ok := CheckDistinct(Aliases(idps));
    if !ok {
      return;
    }
    for i := 0 to |idps|
      invariant forall j :: 0 <= j < i ==> ProviderOk(idps[j])
    {
      if '/' in idps[i].alias || idps[i].providerId == "" {
        return false;
      }
      ok := ScanSliceNullBytes(ProviderTexts(idps[i]));
      if !ok {
        return;
      }
      ok := ValidateAttributes(idps[i].config);
      if !ok {
        return;
      }
    }
    ok := true;
  }

  /** One entry for each claim so far, with the domains of the organization that makes it. */
  ghost predicate IsOwner(owner: map<string, seq<string>>, os: seq<O.Org>, n: nat)
    requires n <= |os|
  {
    && (forall j, a :: 0 <= j < n && a in os[j].identityProviders ==> a in owner && owner[a] == os[j].domains)
    && forall a :: a in owner ==> exists j :: 0 <= j < n && a in os[j].identityProviders
  }

  /** Which organization claims each alias: no two do, so no entry is overwritten. */
  method DomainsOfOwners(os: seq<O.Org>) returns (owner: map<string, seq<string>>)
    requires O.ClaimsDisjoint(os)
    ensures IsOwner(owner, os, |os|)
  {
    hide IsOwner, O.ClaimsDisjoint;
    owner := map[];
    NoOwner(os);
    for i := 0 to |os|
      invariant IsOwner(owner, os, i)
    {
      ghost var before := owner;
      var aliases := os[i].identityProviders;
      for k := 0 to |aliases|
        invariant forall a :: a in owner <==> a in before || a in aliases[..k]
        invariant forall a :: a in owner ==> owner[a] == if a in aliases[..k] then os[i].domains else before[a]
      {
        owner := owner[aliases[k] := os[i].domains];
      }
      assert aliases[..|aliases|] == aliases;
      OneMoreOwner(before, owner, os, i);
    }
  }

  lemma NoOwner(os: seq<O.Org>)
    ensures IsOwner(map[], os, 0)
  {}

  lemma OneMoreOwner(before: map<string, seq<string>>, owner: map<string, seq<string>>, os: seq<O.Org>, i: nat)
    requires i < |os| && O.ClaimsDisjoint(os) && IsOwner(before, os, i)
    requires forall a :: a in owner <==> a in before || a in os[i].identityProviders
    requires forall a :: a in owner ==> owner[a] == if a in os[i].identityProviders then os[i].domains else before[a]
    ensures IsOwner(owner, os, i + 1)
  {
    forall j, a | 0 <= j <= i && a in os[j].identityProviders ensures a in owner && owner[a] == os[j].domains {
      assert j < i ==> a !in os[i].identityProviders;
    }
    forall a | a in owner ensures exists j :: 0 <= j <= i && a in os[j].identityProviders {
      if a in os[i].identityProviders {
        assert 0 <= i <= i && a in os[i].identityProviders;
      }
    }
  }

  method ValidateProviderDomains(idps: seq<I.IdpConfig>, os: seq<O.Org>) returns (ok: bool)
    requires O.ClaimsDisjoint(os)
    ensures ok <==> DomainsAgree(idps, os)
  {
    if |os| == 0 {
      return true;
    }
    var owner := DomainsOfOwners(os);
    for i := 0 to |idps|
      invariant DomainsAgree(idps[..i], os)
    {
      var idp := idps[i];
      if idp.alias in owner && ORG_DOMAIN in idp.config && idp.config[ORG_DOMAIN] != ""
         && idp.config[ORG_DOMAIN] !in owner[idp.alias] {
        return false;
      }
    }
    assert idps[..|idps|] == idps;
    ok := true;
  }

  lemma OrganizationsClaim(organizationsEnabled: bool, os: seq<O.Org>)
    requires O.OrganizationsOk(organizationsEnabled, os)
    ensures O.ClaimsOk(os) && O.ClaimsDisjoint(os)
  {
    if os == [] {
      assert O.AllClaims(os) == [];
    }
    O.ValidClaimsAreDisjoint(os);
  }

  /** The checks of one realm, in the order they are made. */
  method ValidateRealm(r: Realm, flows: seq<FlowConfig.Flow>, organizationsEnabled: bool) returns (ok: bool)
    ensures ok <==> RealmOk(r, flows, organizationsEnabled)
    ensures ok ==> Accepted(r)
  {
    hide ScopeOk, ClientOk, UserOk, ProviderOk, GroupConfigs.Acceptable, O.OrganizationsOk,
        FlowConfig.AcceptableFlows, Accepted, DomainsAgree, O.ClaimsOk, O.ClaimsDisjoint;
    if r.name == "" || HasNull(r.name) || r.name == MASTER {
      return false;
    }
    ok := ValidateClientScopes(r.scopes);
    if !ok {
      return;
    }
    ok := ValidateClients(r.clients);
    if !ok {
      return;
    }
    ok := CheckDistinct(r.roles);
    if !ok {
      return;
    }
    ok := ValidateUsers(r.users);
    if !ok {
      return;
    }
    ok := GroupConfigs.ValidateGroups(r.groups);
    if !ok {
      return;
    }
    ok := O.ValidateOrganizations(organizationsEnabled, r.organizations);
    if !ok {
      return;
    }
    ok := FlowConfig.ValidateAuthenticationFlows(flows);
    if !ok {
      return;
    }
    ok := ValidateIdentityProviders(r.providers);
    if !ok {
      return;
    }
    OrganizationsClaim(organizationsEnabled, r.organizations);
    ok := ValidateProviderDomains(r.providers, r.organizations);
    if ok {
      ValidIsAccepted(r, flows, organizationsEnabled);
    }
  }
}
