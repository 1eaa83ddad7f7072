/** Who holds which roles, and how a declaration of roles comes to hold (internal/provisioner/role_mappings.go,
    scope_mappings.go). */
module Holdings {
  import opened Lists
  import opened Text
  import opened Ids
  import opened Directory
  import opened Reconcile
  import opened LiveRuns

  /** The holder has all these roles. */
  ghost predicate Holds(s: Server, realm: string, kind: HolderKind, holder: Id, roles: Roles) {
    && Elements(roles.realm) <= Mapped(s, Mapping(realm, kind, holder, ""))
    && forall e :: e in roles.clients && e.1 != [] ==>
         && Client(realm, e.0) in s.objects
         && Elements(e.1) <= Mapped(s, Mapping(realm, kind, holder, s.objects[Client(realm, e.0)]))
  }

  lemma HoldsLater(s: Server, t: Server, realm: string, kind: HolderKind, holder: Id, roles: Roles)
    requires Grows(s, t) && Holds(s, realm, kind, holder, roles)
    ensures Holds(t, realm, kind, holder, roles)
  {
    assert Mapped(s, Mapping(realm, kind, holder, "")) <= Mapped(t, Mapping(realm, kind, holder, ""));
    forall e | e in roles.clients && e.1 != []
      ensures Client(realm, e.0) in t.objects
              && Elements(e.1) <= Mapped(t, Mapping(realm, kind, holder, t.objects[Client(realm, e.0)]))
    {
      var m := Mapping(realm, kind, holder, s.objects[Client(realm, e.0)]);
      assert Mapped(s, m) <= Mapped(t, m);
    }
  }

  lemma {:induction false} EntryIsDeclared(s: Server, realm: string, entries: ClientRoles, e: (string, seq<string>),
      client: Id)
    requires e in entries && Lookup(s, Client(realm, e.0)) == Some(client)
    ensures Elements(e.1) <= EntriesFor(s, realm, client, entries)
    decreases |entries|
  {
    if e != entries[0] {
      EntryIsDeclared(s, realm, entries[1..], e, client);
    }
  }

  /** The roles a config names exist. */
  ghost predicate RolesThere(s: Server, realm: string, roles: Roles) {
    RolesExist(s, realm, "", roles.realm) && EntriesExist(s, realm, roles.clients)
  }

  /** Whether roles are there is a matter of roles and clients alone. */
  lemma RolesThereAlike(s: Server, t: Server, realm: string, roles: Roles)
    requires Grows(s, t)
    requires forall k: Key :: k in t.objects && (k.Client? || k.RealmRole? || k.ClientRole?) ==> k in s.objects
    ensures RolesThere(s, realm, roles) <==> RolesThere(t, realm, roles)
  {
    forall e | e in roles.clients ensures EntryExists(s, realm, e) <==> EntryExists(t, realm, e) {
      assert Lookup(s, Client(realm, e.0)) == Lookup(t, Client(realm, e.0));
    }
    assert forall n :: RealmRole(realm, n) in s.objects <==> RealmRole(realm, n) in t.objects;
  }

  /** Granting goes through exactly when the roles exist, and the holder has them afterwards. */
  lemma GrantingHolds(a: Api, realm: string, kind: HolderKind, holder: Id, roles: Roles)
    requires IsLive(a) && realm in a.server.realms && HolderKnown(a.server, Mapping(realm, kind, holder, ""))
    requires !Unborn(a.server, holder)
    ensures
      var (b, status) := EnsureRoleMappings(a, realm, kind, holder, roles.realm, roles.clients);
      && status == (if RolesThere(a.server, realm, roles) then Done else NotFound)
      && IsLive(b) && Grows(a.server, b.server) && b.server == a.server.(mappings := b.server.mappings)
      && (status == Done ==> Holds(b.server, realm, kind, holder, roles))
  {
    hide Directory.WellFormed, Grows, Holds;
    EnsureRoleMappingsLive(a, realm, kind, holder, roles.realm, roles.clients);
    var (b, status) := EnsureRoleMappings(a, realm, kind, holder, roles.realm, roles.clients);
    if status == Done {
      GrantedHolds(a.server, b.server, realm, kind, holder, roles);
    }
  }

  lemma GrantedHolds(s: Server, t: Server, realm: string, kind: HolderKind, holder: Id, roles: Roles)
    requires Granted(s, t, x => Declares(s, realm, kind, holder, roles.realm, roles.clients, x))
    requires EntriesExist(s, realm, roles.clients)
    ensures Holds(t, realm, kind, holder, roles)
  {
    assert Elements(roles.realm) <= Declares(s, realm, kind, holder, roles.realm, roles.clients,
        Mapping(realm, kind, holder, ""));
    forall e | e in roles.clients && e.1 != []
      ensures Client(realm, e.0) in t.objects
              && Elements(e.1) <= Mapped(t, Mapping(realm, kind, holder, t.objects[Client(realm, e.0)]))
    {
      assert EntryExists(s, realm, e);
      var client := s.objects[Client(realm, e.0)];
      EntryIsDeclared(s, realm, roles.clients, e, client);
      var m := Mapping(realm, kind, holder, client);
      assert Declares(s, realm, kind, holder, roles.realm, roles.clients, m) <= Mapped(t, m);
    }
  }
}
