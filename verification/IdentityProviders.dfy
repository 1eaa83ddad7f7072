/** Identity providers (internal/provisioner/identity_providers.go, attributes.go): updates against a server that
    replaces the whole representation, masks secrets when read, and takes the mask as "keep what is stored". */
module IdentityProviders {
  import opened Text

  const MASK := "**********"
  /** Keys of a representation; `OtherKey` is any key the config cannot set. */
  datatype Field =
    | Alias | ProviderId | DisplayName | FirstBrokerLoginFlowAlias | PostBrokerLoginFlowAlias
    | Enabled | TrustEmail | StoreToken | AddReadTokenRoleOnCreate | LinkOnly | HideOnLogin
    | Config | InternalId | OrganizationId | Types | OtherKey(name: string)

  const SERVER_OWNED := {InternalId, OrganizationId, Types}

  /** An entry of a string map as it may come back; `Misc` carries what printing it gives. */
  datatype Entry = Null | Text(text: string) | Misc(printed: string)

  datatype Value = Str(text: string) | Flag(on: bool) | Entries(entries: map<string, Entry>) | Opaque(raw: string)

  type Rep = map<Field, Value>

  /** What the server stores of one provider. Secrets are stored in the clear; `fields` holds what it does not treat
      specially. */
  datatype Provider = Provider(fields: Rep, config: map<string, string>, internalId: string,
    organization: Option<string>, types: string)

  predicate ValidProvider(p: Provider) {
    p.fields.Keys !! SERVER_OWNED + {Config}
  }

  // ---------- the server ----------

  function Masked(config: map<string, string>, secrets: set<string>): map<string, Entry> {
    map k | k in config :: Text(if k in secrets then MASK else config[k])
  }

  /** The representation a listing carries. */
  function Read(p: Provider, secrets: set<string>): Rep {
    p.fields
    + map[Config := Entries(Masked(p.config, secrets)), InternalId := Str(p.internalId), Types := Opaque(p.types)]
    + (if p.organization.Some? then map[OrganizationId := Str(p.organization.value)] else map[])
  }

  function TextOf(e: Entry): string {
    match e
    case Text(t) => t
    case Misc(t) => t
    case Null => ""
  }

  /** The config of a representation that is being stored over `kept`. */
  function Stored(body: Rep, secrets: set<string>, kept: map<string, string>): map<string, string> {
    if Config in body && body[Config].Entries? then
      map k | k in body[Config].entries ::
        if k in secrets && TextOf(body[Config].entries[k]) == MASK && k in kept then kept[k]
        else TextOf(body[Config].entries[k])
    else map[]
  }

  /** Everything is replaced; an organization id in the body reassigns the provider. */
  function Put(p: Provider, body: Rep, secrets: set<string>): Provider {
    p.(fields := body - (SERVER_OWNED + {Config}), config := Stored(body, secrets, p.config),
       organization := if OrganizationId in body && body[OrganizationId].Str? then Some(body[OrganizationId].text)
         else p.organization)
  }

  function Post(body: Rep, secrets: set<string>, internalId: string, types: string): Provider {
    Provider(body - (SERVER_OWNED + {Config}), Stored(body, secrets, map[]), internalId, None, types)
  }

  // ---------- the body ----------

  /** Empty strings and absent flags are not configured. */
  datatype IdpConfig = IdpConfig(
    alias: string, providerId: string, displayName: string, firstBrokerLoginFlowAlias: string,
    postBrokerLoginFlowAlias: string,
    enabled: Option<bool>, trustEmail: Option<bool>, storeToken: Option<bool>, addReadTokenRoleOnCreate: Option<bool>,
    linkOnly: Option<bool>, hideOnLogin: Option<bool>, config: map<string, string>)

  function IdentityProviderFlags(idp: IdpConfig): map<Field, Option<bool>> {
    map[Enabled := idp.enabled, TrustEmail := idp.trustEmail, StoreToken := idp.storeToken,
        AddReadTokenRoleOnCreate := idp.addReadTokenRoleOnCreate, LinkOnly := idp.linkOnly,
          HideOnLogin := idp.hideOnLogin]
  }

  function WithText(rep: Rep, key: Field, text: string): Rep {
    if text != "" then rep[key := Str(text)] else rep
  }

  function DeclaredTexts(idp: IdpConfig): Rep {
    WithText(WithText(WithText(map[Alias := Str(idp.alias), ProviderId := Str(idp.providerId)],
      DisplayName, idp.displayName), FirstBrokerLoginFlowAlias, idp.firstBrokerLoginFlowAlias),
      PostBrokerLoginFlowAlias, idp.postBrokerLoginFlowAlias)
  }

  /** The fields a config declares, config entries aside. */
  function Declared(idp: IdpConfig): Rep {
    DeclaredTexts(idp) + DeclaredFlags(idp)
  }

  function DeclaredFlags(idp: IdpConfig): Rep {
    map k | k in IdentityProviderFlags(idp) && IdentityProviderFlags(idp)[k].Some? ::
      Flag(IdentityProviderFlags(idp)[k].value)
  }

  /** What a string-map field holds, nulls left out. */
  function Current(existing: Rep, field: Field): map<string, string> {
    if field in existing && existing[field].Entries? then
      map k | k in existing[field].entries && !existing[field].entries[k].Null? :: TextOf(existing[field].entries[k])
    else map[]
  }

  function AsEntries(m: map<string, string>): Value {
    Entries(map k | k in m :: Text(m[k]))
  }

  /** `existing` is empty on create. */
  function Body(idp: IdpConfig, existing: Rep): Rep {
    var merged := Current(existing, Config) + idp.config;
    (existing - SERVER_OWNED) + Declared(idp) + (if merged == map[] then map[] else map[Config := AsEntries(merged)])
  }

  /** Configured values over current ones, in a fresh map. */
  method MergeStringMapField(existing: Rep, field: Field, configured: map<string, string>)
    returns (merged: map<string, string>)
    ensures merged == Current(existing, field) + configured
    ensures forall k :: k in configured ==> k in merged && merged[k] == configured[k]
    ensures forall k :: k in merged && k !in configured ==>
              && field in existing && existing[field].Entries? && k in existing[field].entries
              && !existing[field].entries[k].Null? && merged[k] == TextOf(existing[field].entries[k])
    ensures field in existing && existing[field].Entries? ==>
              forall k :: k in existing[field].entries && !existing[field].entries[k].Null? ==> k in merged
  {
    merged := map[];
    if field in existing && existing[field].Entries? {
      var current := existing[field].entries;
      var rest := current.Keys;
      while rest != {}
        invariant rest <= current.Keys
        invariant merged == map k | k in current.Keys - rest && !current[k].Null? :: TextOf(current[k])
        decreases rest
      {
        var k :| k in rest;
        rest := rest - {k};
        match current[k] {
          case Null =>
          case Text(t) => merged := merged[k := t];
          case Misc(t) => merged := merged[k := t];
        }
      }
    }
    merged := LayOver(merged, configured);
  }

  method LayOver(start: map<string, string>, configured: map<string, string>) returns (merged: map<string, string>)
    ensures merged == start + configured
  {
    merged := start;
    var rest := configured.Keys;
    while rest != {}
      invariant rest <= configured.Keys
      invariant merged == start + map k | k in configured.Keys - rest :: configured[k]
      decreases rest
    {
      var k :| k in rest;
      rest := rest - {k};
      merged := merged[k := configured[k]];
    }
  }

  lemma TextOver(a: Rep, m: Rep, key: Field, text: string)
    ensures WithText(a + m, key, text) == a + WithText(m, key, text)
  {}

  /** The text fields of the config, laid over a body. */
  method BuildTexts(idp: IdpConfig, start: Rep) returns (body: Rep)
    ensures body == start + DeclaredTexts(idp)
  {
    var t0 := map[Alias := Str(idp.alias), ProviderId := Str(idp.providerId)];
    body := start[Alias := Str(idp.alias)][ProviderId := Str(idp.providerId)];
    assert body == start + t0;
    if idp.displayName != "" {
      body := body[DisplayName := Str(idp.displayName)];
    }
    TextOver(start, t0, DisplayName, idp.displayName);
    var t1 := WithText(t0, DisplayName, idp.displayName);
    if idp.firstBrokerLoginFlowAlias != "" {
      body := body[FirstBrokerLoginFlowAlias := Str(idp.firstBrokerLoginFlowAlias)];
    }
    TextOver(start, t1, FirstBrokerLoginFlowAlias, idp.firstBrokerLoginFlowAlias);
    var t2 := WithText(t1, FirstBrokerLoginFlowAlias, idp.firstBrokerLoginFlowAlias);
    if idp.postBrokerLoginFlowAlias != "" {
      body := body[PostBrokerLoginFlowAlias := Str(idp.postBrokerLoginFlowAlias)];
    }
    TextOver(start, t2, PostBrokerLoginFlowAlias, idp.postBrokerLoginFlowAlias);
  }

  /** The flags that are configured, in whatever order the map yields them. */
  method BuildFlags(idp: IdpConfig, start: Rep) returns (body: Rep)
    ensures body == start + DeclaredFlags(idp)
  {
    var flags := IdentityProviderFlags(idp);
    hide IdentityProviderFlags;
    body := start;
    var rest := flags.Keys;
    while rest != {}
      invariant rest <= flags.Keys
      invariant body == start + map k | k in flags.Keys - rest && flags[k].Some? :: Flag(flags[k].value)
      decreases rest
    {
      var k :| k in rest;
      rest := rest - {k};
      if flags[k].Some? {
        body := body[k := Flag(flags[k].value)];
      }
    }
    assert flags.Keys - {} == flags.Keys;
  }

  method CopyOf(existing: Rep) returns (body: Rep)
    ensures body == existing
  {
    body := map[];
    var rest := existing.Keys;
    while rest != {}
      invariant rest <= existing.Keys && body == map k | k in existing.Keys - rest :: existing[k]
      decreases rest
    {
      var k :| k in rest;
      rest := rest - {k};
      body := body[k := existing[k]];
    }
  }

  lemma SumsAssociate(a: Rep, b: Rep, c: Rep)
    ensures (a + b) + c == a + (b + c)
  {}

  lemma BodyIs(idp: IdpConfig, existing: Rep)
    ensures
      var merged := Current(existing, Config) + idp.config;
      var body := ((existing - SERVER_OWNED) + DeclaredTexts(idp)) + DeclaredFlags(idp);
      Body(idp, existing) == if merged == map[] then body else body[Config := AsEntries(merged)]
  {
    hide DeclaredTexts, DeclaredFlags, Current, AsEntries;
    SumsAssociate(existing - SERVER_OWNED, DeclaredTexts(idp), DeclaredFlags(idp));
  }

  /** Copy what exists, drop what the server owns, then lay the config over it. */
  method BuildIdentityProviderBody(idp: IdpConfig, existing: Rep) returns (body: Rep)
    ensures body == Body(idp, existing)
    ensures FieldsSet(existing, body, idp) && body.Keys !! SERVER_OWNED
    ensures forall k :: k in idp.config ==> Sends(body, k, idp.config[k])
  {
    hide *;
    BodyIs(idp, existing);
    BodySetsFields(idp, existing);
    body := CopyOf(existing);
    body := body - SERVER_OWNED;
    body := BuildTexts(idp, body);
    body := BuildFlags(idp, body);
    var merged := MergeStringMapField(existing, Config, idp.config);
    if |merged| > 0 {
      body := body[Config := AsEntries(merged)];
      assert merged != map[];
    } else {
      assert merged == map[];
    }
  }

  // ---------- what a config says of a provider, field by field ----------

  predicate SameAt(was: Rep, now: Rep, key: Field) {
    (key in now <==> key in was) && (key in was ==> now[key] == was[key])
  }

  predicate TextSet(was: Rep, now: Rep, key: Field, text: string) {
    if text == "" then SameAt(was, now, key) else key in now && now[key] == Str(text)
  }

  predicate FlagSet(was: Rep, now: Rep, key: Field, flag: Option<bool>) {
    match flag
    case None => SameAt(was, now, key)
    case Some(on) => key in now && now[key] == Flag(on)
  }

  /** What is configured is in its place, and what is not is as it was. */
  ghost predicate FieldsSet(was: Rep, now: Rep, idp: IdpConfig) {
    && Alias in now && now[Alias] == Str(idp.alias) && ProviderId in now && now[ProviderId] == Str(idp.providerId)
    && TextSet(was, now, DisplayName, idp.displayName)
    && TextSet(was, now, FirstBrokerLoginFlowAlias, idp.firstBrokerLoginFlowAlias)
    && TextSet(was, now, PostBrokerLoginFlowAlias, idp.postBrokerLoginFlowAlias)
    && FlagSet(was, now, Enabled, idp.enabled) && FlagSet(was, now, TrustEmail, idp.trustEmail)
    && FlagSet(was, now, StoreToken, idp.storeToken)
    && FlagSet(was, now, AddReadTokenRoleOnCreate, idp.addReadTokenRoleOnCreate)
    && FlagSet(was, now, LinkOnly, idp.linkOnly) && FlagSet(was, now, HideOnLogin, idp.hideOnLogin)
    && forall name :: SameAt(was, now, OtherKey(name))
  }

  /** The body holds this config entry. */
  predicate Sends(body: Rep, k: string, text: string) {
    && Config in body && body[Config].Entries?
    && k in body[Config].entries && body[Config].entries[k] == Entry.Text(text)
  }

  /** Each config key holds what is configured, and what it held if nothing is or the mask is put over a secret. */
  ghost predicate EntriesSet(was: map<string, string>, now: map<string, string>, idp: IdpConfig, secrets: set<string>) {
    && (forall k :: k in now <==> k in was || k in idp.config)
    && (forall k :: k in idp.config ==>
          now[k] == if k in secrets && idp.config[k] == MASK && k in was then was[k] else idp.config[k])
    && forall k :: k in was && k !in idp.config ==> now[k] == was[k]
  }

  /** An update: what the server owns stays. */
  ghost predicate IsUpdated(was: Provider, now: Provider, idp: IdpConfig, secrets: set<string>) {
    && FieldsSet(was.fields, now.fields, idp) && EntriesSet(was.config, now.config, idp, secrets)
    && now.internalId == was.internalId && now.organization == was.organization && now.types == was.types
  }

  /** A new provider: nothing but what is configured, and what the server gives. */
  ghost predicate IsCreated(now: Provider, idp: IdpConfig, given: Given) {
    && FieldsSet(map[], now.fields, idp) && now.config == idp.config
    && now.internalId == given.internalId && now.organization == None && now.types == given.types
  }

  predicate TextDeclared(d: Rep, key: Field, text: string) {
    (key in d <==> text != "") && (key in d ==> d[key] == Str(text))
  }

  predicate FlagDeclared(d: Rep, key: Field, flag: Option<bool>) {
    (key in d <==> flag.Some?) && (key in d ==> d[key] == Flag(flag.value))
  }

  lemma TextsDeclared(idp: IdpConfig)
    ensures
      var d := DeclaredTexts(idp);
      && d.Keys <= {Alias, ProviderId, DisplayName, FirstBrokerLoginFlowAlias, PostBrokerLoginFlowAlias}
      && Alias in d && d[Alias] == Str(idp.alias) && ProviderId in d && d[ProviderId] == Str(idp.providerId)
      && TextDeclared(d, DisplayName, idp.displayName)
      && TextDeclared(d, FirstBrokerLoginFlowAlias, idp.firstBrokerLoginFlowAlias)
      && TextDeclared(d, PostBrokerLoginFlowAlias, idp.postBrokerLoginFlowAlias)
  {}

  const FLAGS := {Enabled, TrustEmail, StoreToken, AddReadTokenRoleOnCreate, LinkOnly, HideOnLogin}

  lemma FlagsDeclared(idp: IdpConfig)
    ensures
      var d := DeclaredFlags(idp);
      && d.Keys <= FLAGS
      && FlagDeclared(d, Enabled, idp.enabled) && FlagDeclared(d, TrustEmail, idp.trustEmail)
      && FlagDeclared(d, StoreToken, idp.storeToken)
      && FlagDeclared(d, AddReadTokenRoleOnCreate, idp.addReadTokenRoleOnCreate)
      && FlagDeclared(d, LinkOnly, idp.linkOnly) && FlagDeclared(d, HideOnLogin, idp.hideOnLogin)
  {
    var flags := IdentityProviderFlags(idp);
    assert flags[Enabled] == idp.enabled && flags[TrustEmail] == idp.trustEmail;
    assert flags[StoreToken] == idp.storeToken && flags[LinkOnly] == idp.linkOnly;
    assert flags[AddReadTokenRoleOnCreate] == idp.addReadTokenRoleOnCreate && flags[HideOnLogin] == idp.hideOnLogin;
    hide IdentityProviderFlags;
  }

  lemma FlagIsSet(was: Rep, texts: Rep, flags: Rep, key: Field, flag: Option<bool>)
    requires FlagDeclared(flags, key, flag) && key !in texts
    ensures FlagSet(was, was + (texts + flags), key, flag)
  {}

  lemma TextIsSet(was: Rep, texts: Rep, flags: Rep, key: Field, text: string)
    requires TextDeclared(texts, key, text) && key !in flags
    ensures TextSet(was, was + (texts + flags), key, text)
  {}

  lemma FieldIsSet(idp: IdpConfig, was: Rep)
    ensures FieldsSet(was, was + Declared(idp), idp)
  {
    hide DeclaredTexts, DeclaredFlags, FlagSet, TextSet, FlagDeclared, TextDeclared, SameAt;
    TextsDeclared(idp);
    FlagsDeclared(idp);
    var x, y := DeclaredTexts(idp), DeclaredFlags(idp);
    TextIsSet(was, x, y, DisplayName, idp.displayName);
    TextIsSet(was, x, y, FirstBrokerLoginFlowAlias, idp.firstBrokerLoginFlowAlias);
    TextIsSet(was, x, y, PostBrokerLoginFlowAlias, idp.postBrokerLoginFlowAlias);
    FlagIsSet(was, x, y, Enabled, idp.enabled);
    FlagIsSet(was, x, y, TrustEmail, idp.trustEmail);
    FlagIsSet(was, x, y, StoreToken, idp.storeToken);
    FlagIsSet(was, x, y, AddReadTokenRoleOnCreate, idp.addReadTokenRoleOnCreate);
    FlagIsSet(was, x, y, LinkOnly, idp.linkOnly);
    FlagIsSet(was, x, y, HideOnLogin, idp.hideOnLogin);
    OthersStay(was, x, y);
  }

  lemma OthersStay(was: Rep, texts: Rep, flags: Rep)
    requires forall name :: OtherKey(name) !in texts && OtherKey(name) !in flags
    ensures forall name :: SameAt(was, was + (texts + flags), OtherKey(name))
  {}

  lemma TextAlike(was: Rep, now: Rep, now': Rep, key: Field, text: string)
    requires TextSet(was - SERVER_OWNED, now, key, text) && SameAt(now, now', key) && key !in SERVER_OWNED
    ensures TextSet(was, now', key, text)
  {}

  lemma FlagAlike(was: Rep, now: Rep, now': Rep, key: Field, flag: Option<bool>)
    requires FlagSet(was - SERVER_OWNED, now, key, flag) && SameAt(now, now', key) && key !in SERVER_OWNED
    ensures FlagSet(was, now', key, flag)
  {}

  lemma OtherAlike(was: Rep, now: Rep, now': Rep, name: string)
    requires SameAt(was - SERVER_OWNED, now, OtherKey(name)) && SameAt(now, now', OtherKey(name))
    ensures SameAt(was, now', OtherKey(name))
  {}

  lemma NameAlike(now: Rep, now': Rep, key: Field, text: string)
    requires key in now && now[key] == Str(text) && SameAt(now, now', key)
    ensures key in now' && now'[key] == Str(text)
  {}

  /** Keys the server owns, and the config entries, say nothing of the fields. */
  lemma FieldsSetAlike(was: Rep, now: Rep, now': Rep, idp: IdpConfig)
    requires FieldsSet(was - SERVER_OWNED, now, idp) && forall key :: key != Config ==> SameAt(now, now', key)
    ensures FieldsSet(was, now', idp)
  {
    hide TextSet, FlagSet, SameAt;
    NameAlike(now, now', Alias, idp.alias);
    NameAlike(now, now', ProviderId, idp.providerId);
    TextAlike(was, now, now', DisplayName, idp.displayName);
    TextAlike(was, now, now', FirstBrokerLoginFlowAlias, idp.firstBrokerLoginFlowAlias);
    TextAlike(was, now, now', PostBrokerLoginFlowAlias, idp.postBrokerLoginFlowAlias);
    FlagAlike(was, now, now', Enabled, idp.enabled);
    FlagAlike(was, now, now', TrustEmail, idp.trustEmail);
    FlagAlike(was, now, now', StoreToken, idp.storeToken);
    FlagAlike(was, now, now', AddReadTokenRoleOnCreate, idp.addReadTokenRoleOnCreate);
    FlagAlike(was, now, now', LinkOnly, idp.linkOnly);
    FlagAlike(was, now, now', HideOnLogin, idp.hideOnLogin);
    forall name ensures SameAt(was, now', OtherKey(name)) {
      OtherAlike(was, now, now', name);
    }
  }

  lemma BodySetsFields(idp: IdpConfig, existing: Rep)
    ensures
      var body := Body(idp, existing);
      && FieldsSet(existing, body, idp) && body.Keys !! SERVER_OWNED
      && forall k :: k in idp.config ==> Sends(body, k, idp.config[k])
  {
    hide Declared, FieldsSet, Sends;
    FieldIsSet(idp, existing - SERVER_OWNED);
    BodyAddsConfig(idp, existing);
    FieldsSetAlike(existing, (existing - SERVER_OWNED) + Declared(idp), Body(idp, existing), idp);
  }

  lemma BodyAddsConfig(idp: IdpConfig, existing: Rep)
    ensures
      var fields := (existing - SERVER_OWNED) + Declared(idp);
      var body := Body(idp, existing);
      && body.Keys !! SERVER_OWNED && (forall key :: key != Config ==> SameAt(fields, body, key))
      && forall k :: k in idp.config ==> Sends(body, k, idp.config[k])
  {
    DeclaredIsPlain(idp);
    hide Declared, Current;
    var body := Body(idp, existing);
    forall k | k in idp.config ensures Sends(body, k, idp.config[k]) {
      assert (Current(existing, Config) + idp.config)[k] == idp.config[k];
    }
  }

  /** What a reconciled store holds: each configured provider created, updated or left alone, and no other touched. */
  ghost predicate StoreIsReconciled(s: Store, t: Store, idps: seq<IdpConfig>, createOnly: bool, secrets: set<string>,
      given: Given) {
    && (forall i :: 0 <= i < |idps| ==> ProviderIsReconciled(s, t, idps[i], createOnly, secrets, given))
    && forall a :: a in s.Keys + t.Keys && (forall i :: 0 <= i < |idps| ==> idps[i].alias != a) ==>
         a in s && a in t && t[a] == s[a]
  }

  ghost predicate ProviderIsReconciled(s: Store, t: Store, idp: IdpConfig, createOnly: bool, secrets: set<string>,
      given: Given) {
    && idp.alias in t
    && if idp.alias !in s then IsCreated(t[idp.alias], idp, given)
       else if createOnly then t[idp.alias] == s[idp.alias]
       else IsUpdated(s[idp.alias], t[idp.alias], idp, secrets)
  }

  // ---------- what an update stores ----------

  /** A configured config value that is the mask stands for the stored secret, if there is one. */
  predicate IsKept(p: Provider, idp: IdpConfig, secrets: set<string>, k: string) {
    k in p.config && (k !in idp.config || (k in secrets && idp.config[k] == MASK))
  }

  /** The old provider, overridden by what is configured and nothing else. */
  function Overridden(p: Provider, idp: IdpConfig, secrets: set<string>): Provider {
    p.(fields := p.fields + Declared(idp),
       config := map k | k in p.config.Keys + idp.config.Keys :: if IsKept(p, idp, secrets, k) then p.config[k]
         else idp.config[k])
  }

  lemma DeclaredIsPlain(idp: IdpConfig)
    ensures Declared(idp).Keys !! SERVER_OWNED + {Config}
  {
    hide DeclaredTexts, DeclaredFlags;
    TextsDeclared(idp);
    FlagsDeclared(idp);
  }

  lemma CurrentIsMasked(p: Provider, secrets: set<string>)
    requires ValidProvider(p)
    ensures Current(Read(p, secrets), Config) == map k | k in p.config :: if k in secrets then MASK else p.config[k]
  {}

  lemma OverriddenIsUpdated(p: Provider, idp: IdpConfig, secrets: set<string>)
    ensures IsUpdated(p, Overridden(p, idp, secrets), idp, secrets)
  {
    hide FieldsSet, Declared;
    FieldIsSet(idp, p.fields);
  }

  /** Reading, merging and writing back stores exactly the old provider overridden by the config: undeclared fields and
      config keys, secrets among them, keep their values, and the organization link is neither sent nor changed. */
  lemma UpdateOverrides(p: Provider, idp: IdpConfig, secrets: set<string>)
    requires ValidProvider(p)
    ensures
      var body := Body(idp, Read(p, secrets));
      && Put(p, body, secrets) == Overridden(p, idp, secrets) && ValidProvider(Put(p, body, secrets))
      && body.Keys !! SERVER_OWNED && IsUpdated(p, Put(p, body, secrets), idp, secrets)
  {
    var body := Body(idp, Read(p, secrets));
    hide IsUpdated;
    OverriddenIsUpdated(p, idp, secrets);
    DeclaredIsPlain(idp);
    CurrentIsMasked(p, secrets);
    PlainPart(p, idp, secrets);
    var merged := Current(Read(p, secrets), Config) + idp.config;
    hide Declared, Read, Current, Masked, Stored;
    StoredConfig(p, idp, secrets, body, merged);
  }

  /** Reserved keys aside, the body is the old fields overridden by the declared ones. */
  lemma PlainPart(p: Provider, idp: IdpConfig, secrets: set<string>)
    requires ValidProvider(p)
    ensures
      var existing := Read(p, secrets);
      var body := Body(idp, existing);
      && body - (SERVER_OWNED + {Config}) == p.fields + Declared(idp) && body.Keys !! SERVER_OWNED
      && Config in body
      && var merged := Current(existing, Config) + idp.config;
         body[Config] == if merged == map[] then Entries(Masked(p.config, secrets)) else AsEntries(merged)
  {
    DeclaredIsPlain(idp);
    var existing, body := Read(p, secrets), Body(idp, Read(p, secrets));
    hide Declared, Current, Masked;
    assert existing.Keys <= p.fields.Keys + SERVER_OWNED + {Config};
    forall k | k in body - (SERVER_OWNED + {Config})
      ensures k in p.fields + Declared(idp) && (p.fields + Declared(idp))[k] == body[k]
    {}
    assert (body - (SERVER_OWNED + {Config})).Keys == (p.fields + Declared(idp)).Keys;
  }

  lemma StoredConfig(p: Provider, idp: IdpConfig, secrets: set<string>, body: Rep, merged: map<string, string>)
    requires merged == (map k | k in p.config :: if k in secrets then MASK else p.config[k]) + idp.config
    requires Config in body && body[Config] == if merged == map[] then Entries(Masked(p.config, secrets))
        else AsEntries(merged)
    ensures Stored(body, secrets, p.config) == Overridden(p, idp, secrets).config
  {
    assert merged.Keys == p.config.Keys + idp.config.Keys;
    if merged == map[] {
      assert p.config.Keys == {} && idp.config.Keys == {};
    } else {
      StoredEntries(body, secrets, p.config, merged);
      hide Stored, AsEntries, Masked, TextOf;
    }
  }

  lemma StoredEntries(body: Rep, secrets: set<string>, kept: map<string, string>, merged: map<string, string>)
    requires Config in body && body[Config] == AsEntries(merged)
    ensures Stored(body, secrets, kept) == map k | k in merged ::
        if k in secrets && merged[k] == MASK && k in kept then kept[k] else merged[k]
  {}

  /** Updating twice is updating once. */
  lemma UpdateIsFixpoint(p: Provider, idp: IdpConfig, secrets: set<string>)
    ensures Overridden(Overridden(p, idp, secrets), idp, secrets) == Overridden(p, idp, secrets)
  {
    var q := Overridden(p, idp, secrets);
    assert q.fields + Declared(idp) == q.fields;
    forall k | k in q.config
      ensures k in Overridden(q, idp, secrets).config && Overridden(q, idp, secrets).config[k] == q.config[k]
    {}
    assert Overridden(q, idp, secrets).config == q.config;
  }

  /** The stored config agrees with the declared one exactly when no declared secret is the mask over another stored
      value. */
  lemma DeclaredIsStored(p: Provider, idp: IdpConfig, secrets: set<string>)
    ensures (forall k :: k in idp.config ==> Overridden(p, idp, secrets).config[k] == idp.config[k])
            <==> forall k :: k in idp.config && k in secrets && idp.config[k] == MASK ==>
              k !in p.config || p.config[k] == MASK
  {
    if forall k :: k in idp.config ==> Overridden(p, idp, secrets).config[k] == idp.config[k] {
      forall k | k in idp.config && k in secrets && idp.config[k] == MASK && k in p.config ensures p.config[k] == MASK {
        assert Overridden(p, idp, secrets).config[k] == idp.config[k];
      }
    }
  }

  lemma NewFieldsAreSet(idp: IdpConfig)
    ensures FieldsSet(map[], Declared(idp), idp)
  {
    var none: Rep := map[];
    FieldIsSet(idp, none);
    hide Declared, FieldsSet;
    assert none + Declared(idp) == Declared(idp);
  }

  /** A new provider holds exactly what is declared. */
  lemma CreateStoresDeclared(idp: IdpConfig, secrets: set<string>, internalId: string, types: string)
    ensures
      var p := Post(Body(idp, map[]), secrets, internalId, types);
      && ValidProvider(p) && p.fields == Declared(idp) && p.config == idp.config && p.organization == None
      && IsCreated(p, idp, Given(internalId, types))
  {
    DeclaredIsPlain(idp);
    NewFieldsAreSet(idp);
    hide Declared, TextOf, FieldsSet;
    var none: Rep, body := map[], Body(idp, map[]);
    assert Current(none, Config) + idp.config == idp.config;
    assert body == if idp.config == map[] then Declared(idp) else Declared(idp)[Config := AsEntries(idp.config)] by {
      assert (none - SERVER_OWNED) + Declared(idp) == Declared(idp);
    }
    hide Body, Current;
    assert (body - (SERVER_OWNED + {Config})).Keys == Declared(idp).Keys;
    assert body - (SERVER_OWNED + {Config}) == Declared(idp);
    if idp.config != map[] {
      StoredEntries(body, secrets, map[], idp.config);
    }
  }

  // ---------- all providers of a realm ----------

  type Store = map<string, Provider>

  /** What a server gives a provider it creates. */
  datatype Given = Given(internalId: string, types: string)

  function Created(idp: IdpConfig, given: Given): Provider {
    Provider(Declared(idp), idp.config, given.internalId, None, given.types)
  }

  /** The provider a config entry leaves behind, given what was there when the step began. */
  function Reconciled(s: Store, idp: IdpConfig, createOnly: bool, secrets: set<string>, given: Given): Provider {
    if idp.alias !in s then Created(idp, given)
    else if createOnly then s[idp.alias]
    else Overridden(s[idp.alias], idp, secrets)
  }

  function ReconciledAll(s: Store, idps: seq<IdpConfig>, createOnly: bool, secrets: set<string>, given: Given): Store
    decreases |idps|
  {
    if idps == [] then s
    else
      var rest := idps[..|idps| - 1];
      var last := idps[|idps| - 1];
      ReconciledAll(s, rest, createOnly, secrets, given)[last.alias := Reconciled(s, last, createOnly, secrets, given)]
  }

  predicate DistinctAliases(idps: seq<IdpConfig>) {
    forall i, j :: 0 <= i < j < |idps| ==> idps[i].alias != idps[j].alias
  }

  ghost predicate ValidStore(s: Store) {
    forall a :: a in s ==> ValidProvider(s[a])
  }

  class IdpServer {
    const secrets: set<string>
    const given: Given
    var store: Store

    constructor (secrets: set<string>, given: Given, store: Store)
      ensures this.secrets == secrets && this.given == given && this.store == store
    {
      this.secrets, this.given, this.store := secrets, given, store;
    }

    /** The full representations, secrets masked. */
    method GetIdentityProviders() returns (listing: map<string, Rep>)
      ensures listing.Keys == store.Keys && forall a :: a in store ==> listing[a] == Read(store[a], secrets)
    {
      listing := map a | a in store :: Read(store[a], secrets);
    }

    method UpdateIdentityProvider(alias: string, body: Rep)
      requires alias in store
      modifies this
      ensures store == old(store)[alias := Put(old(store)[alias], body, secrets)]
    {
      store := store[alias := Put(store[alias], body, secrets)];
    }

    /** A taken alias is refused. */
    method CreateIdentityProvider(alias: string, body: Rep) returns (ok: bool)
      modifies this
      ensures ok <==> alias !in old(store)
      ensures store == if ok then old(store)[alias := Post(body, secrets, given.internalId, given.types)]
          else old(store)
    {
      ok := alias !in store;
      if ok {
        store := store[alias := Post(body, secrets, given.internalId, given.types)];
      }
    }
  }

  lemma ReconciledElsewhere(s: Store, idps: seq<IdpConfig>, createOnly: bool, secrets: set<string>, given: Given,
      alias: string)
    requires forall i :: 0 <= i < |idps| ==> idps[i].alias != alias
    ensures
      var t := ReconciledAll(s, idps, createOnly, secrets, given);
      (alias in t <==> alias in s) && (alias in s ==> t[alias] == s[alias])
    decreases |idps|
  {
    if idps != [] {
      ReconciledElsewhere(s, idps[..|idps| - 1], createOnly, secrets, given, alias);
    }
  }

  lemma AliasesApart(idps: seq<IdpConfig>)
    requires DistinctAliases(idps)
    ensures forall i, j :: 0 <= i < j < |idps| ==> idps[i].alias != idps[j].alias
  {}

  lemma CreatedIs(idp: IdpConfig, secrets: set<string>, given: Given)
    ensures Post(Body(idp, map[]), secrets, given.internalId, given.types) == Created(idp, given)
  {
    CreateStoresDeclared(idp, secrets, given.internalId, given.types);
    hide Body, Declared;
  }

  lemma AllAreReconciled(s: Store, idps: seq<IdpConfig>, createOnly: bool, secrets: set<string>, given: Given)
    requires DistinctAliases(idps)
    ensures StoreIsReconciled(s, ReconciledAll(s, idps, createOnly, secrets, given), idps, createOnly, secrets, given)
  {
    hide FieldsSet, Declared, ReconciledAll, DistinctAliases;
    var t := ReconciledAll(s, idps, createOnly, secrets, given);
    forall i | 0 <= i < |idps| ensures ProviderIsReconciled(s, t, idps[i], createOnly, secrets, given) {
      ReconciledHere(s, idps, createOnly, secrets, given, i);
      OneIsReconciled(s, idps[i], createOnly, secrets, given);
    }
    forall a | a in s.Keys + t.Keys && (forall i :: 0 <= i < |idps| ==> idps[i].alias != a)
      ensures a in s && a in t && t[a] == s[a]
    {
      ReconciledElsewhere(s, idps, createOnly, secrets, given, a);
    }
  }

  lemma OneIsReconciled(s: Store, idp: IdpConfig, createOnly: bool, secrets: set<string>, given: Given)
    ensures
      var p := Reconciled(s, idp, createOnly, secrets, given);
      if idp.alias !in s then IsCreated(p, idp, given)
      else if createOnly then p == s[idp.alias]
      else IsUpdated(s[idp.alias], p, idp, secrets)
  {
    NewFieldsAreSet(idp);
    hide FieldsSet, Declared, Overridden, IsUpdated;
    if idp.alias in s {
      OverriddenIsUpdated(s[idp.alias], idp, secrets);
    }
  }

  /** Lists the providers once, then creates or updates each from that one listing. */
  method EnsureIdentityProviders(server: IdpServer, idps: seq<IdpConfig>, createOnly: bool) returns (ok: bool)
    requires DistinctAliases(idps) && ValidStore(server.store)
    modifies server
    ensures ok && server.store == ReconciledAll(old(server.store), idps, createOnly, server.secrets, server.given)
    ensures StoreIsReconciled(old(server.store), server.store, idps, createOnly, server.secrets, server.given)
  {
    hide FieldsSet, Sends, StoreIsReconciled, Put, Post, Body, Read, Overridden, Created, ValidProvider,
        DistinctAliases;
    AliasesApart(idps);
    ghost var s := server.store;
    var byAlias := server.GetIdentityProviders();
    assert idps[..|idps|] == idps;
    for i := 0 to |idps|
      invariant server.store == ReconciledAll(s, idps[..i], createOnly, server.secrets, server.given)
    {
      var idp := idps[i];
      assert idps[..i + 1][..i] == idps[..i];
      ReconciledElsewhere(s, idps[..i], createOnly, server.secrets, server.given, idp.alias);
      if idp.alias in byAlias {
        if createOnly {
          assert server.store[idp.alias] == s[idp.alias] && server.store[idp.alias := s[idp.alias]] == server.store;
          continue;
        }
        var body := BuildIdentityProviderBody(idp, byAlias[idp.alias]);
        UpdateOverrides(s[idp.alias], idp, server.secrets);
        server.UpdateIdentityProvider(idp.alias, body);
      } else {
        var body := BuildIdentityProviderBody(idp, map[]);
        CreatedIs(idp, server.secrets, server.given);
        ok := server.CreateIdentityProvider(idp.alias, body);
      }
    }
    AllAreReconciled(s, idps, createOnly, server.secrets, server.given);
    ok := true;
  }

  lemma ReconciledHere(s: Store, idps: seq<IdpConfig>, createOnly: bool, secrets: set<string>, given: Given, i: nat)
    requires DistinctAliases(idps) && i < |idps|
    ensures
      var t := ReconciledAll(s, idps, createOnly, secrets, given);
      idps[i].alias in t && t[idps[i].alias] == Reconciled(s, idps[i], createOnly, secrets, given)
    decreases |idps|
  {
    if i < |idps| - 1 {
      ReconciledHere(s, idps[..|idps| - 1], createOnly, secrets, given, i);
    }
  }

  /** The providers there are afterwards: those there were and those configured. */
  lemma {:induction false} ReconciledKeys(s: Store, idps: seq<IdpConfig>, createOnly: bool, secrets: set<string>,
      given: Given)
    ensures ReconciledAll(s, idps, createOnly, secrets, given).Keys == s.Keys + set idp | idp in idps :: idp.alias
    decreases |idps|
  {
    if idps != [] {
      var rest, last := idps[..|idps| - 1], idps[|idps| - 1];
      ReconciledKeys(s, rest, createOnly, secrets, given);
      assert idps == rest + [last];
    }
  }

  lemma ReconciledAgain(s: Store, idp: IdpConfig, createOnly: bool, secrets: set<string>, given: Given, t: Store)
    requires idp.alias in t && t[idp.alias] == Reconciled(s, idp, createOnly, secrets, given)
    ensures Reconciled(t, idp, createOnly, secrets, given) == t[idp.alias]
  {
    if idp.alias !in s {
      var p := Created(idp, given);
      assert Overridden(p, idp, secrets).fields == p.fields;
      assert Overridden(p, idp, secrets).config == p.config;
    } else {
      UpdateIsFixpoint(s[idp.alias], idp, secrets);
    }
  }

  lemma {:induction false} NothingChanges(t: Store, idps: seq<IdpConfig>, createOnly: bool, secrets: set<string>,
      given: Given)
    requires forall i :: 0 <= i < |idps| ==>
               idps[i].alias in t && Reconciled(t, idps[i], createOnly, secrets, given) == t[idps[i].alias]
    ensures ReconciledAll(t, idps, createOnly, secrets, given) == t
    decreases |idps|
  {
    if idps != [] {
      var last := idps[|idps| - 1];
      NothingChanges(t, idps[..|idps| - 1], createOnly, secrets, given);
      assert t[last.alias := t[last.alias]] == t;
    }
  }

  /** A second run leaves every provider of the realm as the first one left it. */
  lemma SecondRunChangesNothing(s: Store, idps: seq<IdpConfig>, createOnly: bool, secrets: set<string>, given: Given)
    requires DistinctAliases(idps)
    ensures
      var t := ReconciledAll(s, idps, createOnly, secrets, given);
      ReconciledAll(t, idps, createOnly, secrets, given) == t
  {
    var t := ReconciledAll(s, idps, createOnly, secrets, given);
    forall i | 0 <= i < |idps|
      ensures idps[i].alias in t && Reconciled(t, idps[i], createOnly, secrets, given) == t[idps[i].alias]
    {
      ReconciledHere(s, idps, createOnly, secrets, given, i);
      ReconciledAgain(s, idps[i], createOnly, secrets, given, t);
    }
    NothingChanges(t, idps, createOnly, secrets, given);
  }
}
