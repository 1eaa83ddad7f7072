/** The validation of group trees (internal/config/config.go), which the dry run and the group run rely on. */
module GroupConfigs {
  import opened ConfigChecks
  import opened Reconcile
  import opened Text

  predicate EntriesOk(entries: ClientRoles) {
    forall e :: e in entries ==> Usable(e.0) && AllUsable(e.1)
  }

  predicate NodeOk(g: GroupConfig)
    decreases g
  {
    && Usable(g.name) && AttributesOk(g.attributes) && AllUsable(g.realmRoles) && EntriesOk(g.clientRoles)
    && Acceptable(g.subGroups)
  }

  /** What a valid config may declare as the groups of one level and below. */
  predicate Acceptable(gs: seq<GroupConfig>)
    decreases gs
  {
    (forall i, j :: 0 <= i < j < |gs| ==> gs[i].name != gs[j].name) && forall i :: 0 <= i < |gs| ==> NodeOk(gs[i])
  }

  function GroupNames(gs: seq<GroupConfig>): set<string> {
    set g | g in gs :: g.name
  }

  method CheckEntries(entries: ClientRoles) returns (ok: bool)
    ensures ok <==> EntriesOk(entries)
  {
    for i := 0 to |entries|
      invariant EntriesOk(entries[..i])
    {
      assert entries[..i + 1] == entries[..i] + [entries[i]];
      assert entries[i] in entries;
      if entries[i].0 == "" || HasNull(entries[i].0) {
        return false;
      }
      var rolesOk := CheckUsable(entries[i].1);
      if !rolesOk {
        return false;
      }
    }
    assert entries[..|entries|] == entries;
    ok := true;
  }

  /** Names are unique among siblings, and may repeat at different levels. */
  method ValidateGroups(gs: seq<GroupConfig>) returns (ok: bool)
    ensures ok <==> Acceptable(gs)
    decreases gs
  {
    var names: set<string> := {};
    for i := 0 to |gs|
      invariant names == GroupNames(gs[..i])
      invariant (forall j :: 0 <= j < i ==> NodeOk(gs[j])) && forall j, k :: 0 <= j < k < i ==> gs[j].name != gs[k].name
    {
      var g := gs[i];
      assert gs[..i + 1] == gs[..i] + [g];
      assert forall j :: 0 <= j < i ==> gs[j] in gs[..i];
      if g.name == "" || HasNull(g.name) || g.name in names {
        return false;
      }
      names := names + {g.name};
      var attributesOk := ValidateMultiValueAttributes(g.attributes);
      if !attributesOk {
        return false;
      }
      var rolesOk := CheckUsable(g.realmRoles);
      if !rolesOk {
        return false;
      }
      var entriesOk := CheckEntries(g.clientRoles);
      if !entriesOk {
        return false;
      }
      var below := ValidateGroups(g.subGroups);
      if !below {
        return false;
      }
    }
    ok := true;
  }

  /** The client-role entries come from maps, all the way down. */
  predicate FromMaps(gs: seq<GroupConfig>)
    decreases gs
  {
    forall i :: 0 <= i < |gs| ==> DistinctClients(gs[i].clientRoles) && FromMaps(gs[i].subGroups)
  }

  /** What the validator accepts is what the dry run needs to predict the run. */
  lemma {:induction false} AcceptableIsValid(gs: seq<GroupConfig>)
    requires Acceptable(gs) && FromMaps(gs)
    ensures ValidGroups(gs)
    decreases gs
  {
    forall i | 0 <= i < |gs| ensures ValidGroups(gs[i].subGroups) {
      AcceptableIsValid(gs[i].subGroups);
    }
  }
}
