# keycloak-provisioner, modelled and proved in Dafny

The tool reconciles a declarative config against a Keycloak server whose endpoints have awkward habits: they ignore
conflicting requests in silence, replace whole representations, append only, search by substring, and mask what they
return. This project models the server with those habits, the reconcilers that live with them, the dry run that
predicts them and the validators they rely on, and proves what the tool is meant to guarantee.

`dafny verify dfyconfig.toml` checks everything, with the default limits.

## How the model is laid out

| module | what it holds |
|---|---|
| Text, Lists, Ids | string search, join and split; sets of list elements, distinctness; server ids and synthetic ids |
| Suggest | edit distance by two swapped rows, and the pruned nearest-name search |
| EnvExpansion | the `$${NAME}` / `${NAME}` scanner, its token meaning, and escaping |
| ConfigMaps | sorted keys, the key-colliding multi-value map, ACR lists, group paths |
| ConfigChecks, FlowConfig, GroupConfigs | what validators share; the validators of flow trees and group trees |
| FlowServer, AuthFlows | a server of flow trees that only appends, and the reconciler that finishes what it appended by "last match"; realm bindings and client overrides |
| ClientScopes | a server that ignores conflicting scope assignments, and the reconciler that moves scopes |
| ManagementPermissions | the authorization server, the policies the tool owns, and the permissions it shares |
| Organizations | members, groups and identity provider links, against an index that is never refreshed; their validator |
| IdentityProviders | full replacement, masked secrets, merged bodies |
| Directory | realms, clients, roles, client scopes, groups, users, role mappings and memberships, reached directly or through the dry-run overlay |
| Reconcile | role mappings, groups, clients and roles: as functions of what the port shows, and as the methods that issue the requests |
| LiveRuns, GroupTrees, ServiceAccounts | exact final states of those on the server itself |
| Holdings, Users | when granting goes through and what it leaves; users with their roles and groups |
| Bookkeeping, DryRun | what a dry run keeps track of, as a state machine; the adapter with its separate maps |
| Simulation, Prediction | a dry run and the run it predicts, in step; the theorem |
| RealmConfigs, RealmValidation | a realm's config, what it may name, and its validator |
| Requests, LiveRequests | the requests a live run sends, against what is declared: the relation, and each step |
| Provision, Progress, RealmRun | all steps of a realm as functions, the progress theorem about them, and the run itself |
| RealmRequests, RunRequests, ConfigRequests | the requests of whole runs |

Code that changes state step by step is a class or a method with loops; each such method is tied by its `ensures` to a
function of the old state, or to the property itself, and the properties of those functions are lemmas. The lists that
map iteration yields are sequences in an arbitrary order that stays fixed within a run.

Results worth knowing:

- A second management-permission run writes nothing exactly when grants that share a policy name are for the same
  clients (`SecondRun`). Scope names without dots guarantee that (`SensibleIsCoherent`); with a dot, two scopes can share
  one policy (`PolicyNamesCanCollide`), and then every run writes, however many went before (`EveryRunWrites`,
  `SharedPolicyIsRewritten`).
- A policy the tool owns keeps the logic somebody gave it by hand: with NEGATIVE logic the configured clients are the
  ones it does not pass (`GrantTakesEffect`).
- The ACR list comes back from its joined form exactly when no value but the last ends in `#`; the validator lets
  such lists through (`AcrRoundTrip`, `AcrRoundTripCanFail`).
- The dry run predicts the run for valid configs (`DryRunPredictsRun`), as far as service accounts go exactly when each
  one it is asked for is foreseen (`PredictionIsExact`). It does not foresee the account that an update of an existing
  client would bring about, and stops there although the run goes through (`AccountToComeIsMissed`). Nor does it remember
  grants, so for two siblings of one name, which validation rejects, it would report a grant twice
  (`RepeatedGroupIsReportedTwice`).
- No id a dry run hands out is ever handed out again, remembered or not (`BookkeepingHolds`).
- A secret configured as the literal mask is not stored if a secret is stored already (`DeclaredIsStored`).
- A run over a realm, whatever the realm holds, goes through exactly when its flows are there or can be created and the
  config names only what it declares or the realm has (`ProvisionRealm`, `RealmProgress`), whatever the order within the
  config. What servers put into new realms may be named (`BuiltInsMayBeNamed`). What a run merely warns about it does as
  far as it can: users join the groups, organizations get the members and clients get the scopes that are declared or
  were there, and no others.
- However a run ends, its requests to the directory are those that what it has got to declares: what is missing is
  created once, what was there is updated once or, create-only, not at all, and each role and membership is asked for
  exactly when it is missing (`RunFollows`, `ConfigFollows`). Lists end as they were with what is declared.
- One thing a config may not name although every realm has it: with a create-only strategy the `realm-management`
  client of a new realm is left alone, so its service account is not found (`AccountIsNotFound`).

## Model

| member | source | states |
|---|---|---|
| Suggest.EditDistance | internal/compat/providers.go:259-285 | the two-row program computes the recursive Levenshtein distance of the lower-cased names, for all strings |
| Suggest.NoScriptIsCheaper | internal/compat/providers.go:259-285 | no sequence of insertions, deletions and replacements that turns one name into the other costs less than the distance |
| Suggest.SomeScriptIsThisCheap | internal/compat/providers.go:259-285 | some such sequence costs exactly the distance |
| Suggest.DistanceIsAMetric | internal/compat/providers.go:259-285 | the distance is symmetric, zero exactly on equality up to case, triangular, and between the length difference and the longer length |
| Suggest.ToLowerMeans | internal/compat/providers.go:259-285 | two names are lower-cased alike exactly when they are the same up to the case of the 26 letters |
| Suggest.Suggest | internal/compat/providers.go:233-256 | a known name at minimum distance among all known names and within the limit, or "" exactly when none qualifies; the length filter loses nothing |
| Suggest.SuggestionDistanceIsUnique | internal/compat/providers.go:233-256 | whatever order the known names come in, the distance achieved is the same |
| EnvExpansion.ExpandMeansTokens | internal/config/config.go:558-576 | the scanner gives every leftmost reading its meaning: escapes become references, set variables their values, unset ones themselves, and values are not scanned again |
| EnvExpansion.Tokenize | internal/config/config.go:558-576 | every string has such a reading |
| EnvExpansion.ExpandEscape | internal/config/config.go:562-576 | prefixing each leftmost reference with a dollar sign and expanding gives the string back, in every environment |
| Text.SplitJoin | internal/provisioner/attributes.go:136-142 | splitting a joined list returns the list exactly when the separator is nowhere found earlier than it was written |
| ConfigMaps.SortedListingIsUnique | internal/provisioner/management_permissions.go:405-414 | a set of keys has one sorted listing, so what is computed from it does not depend on map order |
| ConfigMaps.LessMeans | internal/config/config.go:735-754 | the order of the listing is the dictionary's: a string comes before its continuations, and otherwise the first character that differs decides |
| ConfigMaps.ExpandMultiValueMap | internal/config/config.go:735-754 | each result key holds the expanded values of all source keys that expand to it, and no value is lost or added; of two source keys that share a result key, the values of the one that comes first in a dictionary come first |
| ConfigMaps.ExpansionIsUnique | internal/config/config.go:735-754 | those conditions fix the result |
| ConfigMaps.ValidateDefaultAcrValues | internal/config/config.go:2139-2201 | accepts exactly the lists of usable, pairwise distinct, known values |
| ConfigMaps.AcrRoundTrip | internal/provisioner/attributes.go:136-142 | an accepted list survives joining and splitting exactly when no value but the last ends in the separator's character |
| ConfigMaps.AcrRoundTripCanFail | internal/config/config.go:2139-2166 | an accepted list that does not survive |
| ConfigMaps.GroupPathRoundTrip | internal/provisioner/groups.go:101-125 | the normalised path of a list of non-empty names gives the names back exactly when none contains a slash |
| ConfigMaps.TrimMeans | internal/provisioner/groups.go:101-125 | trimming takes away the slashes at both ends, all of them and nothing else |
| FlowConfig.ValidateAuthenticationFlows | internal/config/config.go:1131-1168 | accepts a realm exactly when every node is well-formed and all flow and subflow aliases across all trees are pairwise distinct |
| FlowConfig.ValidateAuthenticationExecutions | internal/config/config.go:1171-1223 | the same for one list of executions against the aliases seen so far, which it extends by exactly its own |
| FlowConfig.AcceptOneMore | internal/config/config.go:1171-1223 | accepting a list is accepting its nodes one after another, each counting what came before it as seen |
| GroupConfigs.ValidateGroups | internal/config/config.go:1985-2046 | accepts exactly the trees whose siblings have different, usable names and whose attributes and role entries are usable |
| GroupConfigs.AcceptableIsValid | internal/config/config.go:1985-2046 | what it accepts is what the dry run needs of groups |
| FlowServer.AppendedIsListedLast | internal/provisioner/auth_flows.go:133-160 | after an append, the last row of the flattened listing of that flow is the node just appended, repeated providers or not |
| AuthFlows.LastMatch | internal/provisioner/auth_flows.go:133-160 | the row kept by the overwriting loop is a match with no match after it, or there is none |
| AuthFlows.ExpectedNodesAre | internal/provisioner/auth_flows.go:84-207 | nodes of the expected shape are, field by field and all the way down, what the config says |
| AuthFlows.Provisioner.FinalizeExecution | internal/provisioner/auth_flows.go:133-207 | the appended node, and no other, ends with the configured requirement, or the server's without one, and with exactly the configured entries other than "alias", under the configured name or, without one, the flow's and the execution's |
| AuthFlows.Provisioner.CreateFlowExecutions | internal/provisioner/auth_flows.go:84-106 | goes through exactly when the aliases are distinct and unused; the flow's children are then what they were followed by one node for each declared execution, in order and all the way down, each with its provider or subflow, flow type, requirement and settings as configured |
| AuthFlows.Provisioner.CreateSubflow | internal/provisioner/auth_flows.go:107-131 | the same for one subflow and all below it |
| AuthFlows.Provisioner.EnsureAuthenticationFlow | internal/provisioner/auth_flows.go:26-82 | an existing flow is untouched, a built-in one an error; a new one goes through exactly when the server can take every request it leads to, and is then the copied executions followed by the declared ones |
| AuthFlows.Provisioner.EnsureAuthenticationFlows | internal/provisioner/provisioner.go:74-78 | all flows of a realm go through exactly when each is there, and not built in, or can be created over what those before it left; every flow that was not there is then there, and everything created is such a flow, field by field as configured |
| AuthFlows.Provisioner.EnsureAuthenticationBindings | internal/provisioner/auth_flows.go:211-240 | the realm is bound to the configured flows and to nothing else anew, by one request, or none when nothing is configured; an alias that is no flow is refused |
| AuthFlows.Provisioner.ResolveFlowBindingOverrides | internal/provisioner/auth_flows.go:244-270 | succeeds exactly when every alias is in the flow listing, and then gives the flow's id for each binding |
| AuthFlows.ValidFlowsAreCreatable | internal/config/config.go:1131-1223 | the validator's distinct aliases, unused on the server, are enough for all flows to go through, copies included when their sources are there and what they bring along is unused |
| ClientScopes.Provisioner.LoadClientScopeIndex | internal/provisioner/client_scopes.go:26-43 | the index is the inverse of the server's scope names |
| ClientScopes.Provisioner.EnsureClientScope | internal/provisioner/client_scopes.go:65-99 | the scope exists afterwards and the index still agrees with the server; nothing else moves |
| ClientScopes.Provisioner.EnsureRealmClientScopeType | internal/provisioner/client_scopes.go:127-176 | the scope ends in the list its type names and not in the other, and a settled realm is not written to |
| ClientScopes.Provisioner.AssignClientScopes | internal/provisioner/client_scopes.go:232-279 | known wanted scopes end in this list and leave the other; the local view stays equal to the server's; no request is ignored; nothing is written exactly when all were there |
| ClientScopes.Provisioner.EnsureClientScopeAssignments | internal/provisioner/client_scopes.go:199-230 | the exact final default and optional lists; unmentioned scopes and other clients do not move; settled afterwards exactly when the known parts of the lists are disjoint |
| ClientScopes.ValidateDistinctClientScopes | internal/config/config.go:1875-1888 | accepts exactly disjoint lists |
| Ids.NewIdInjective | internal/provisioner/dryrun.go:91-97 | synthetic ids agree only if kind and number do, dashes in the kind notwithstanding |
| Reconcile.Port.FindGroup | internal/provisioner/groups.go:75-87 | exact name at one level, whatever else the search returns and in whatever order |
| Reconcile.Port.EnsureMappings | internal/provisioner/role_mappings.go:59-101 | one request for exactly the wanted roles not mapped, or none |
| Reconcile.Port.EnsureClientMappings | internal/provisioner/role_mappings.go:103-152 | the same client by client, stopping at the first that is missing |
| Reconcile.Port.EnsureOneGroup | internal/provisioner/groups.go:16-72 | group, roles, then subgroups |
| LiveRuns.MissingIsWhatIsNotMapped | internal/provisioner/role_mappings.go:59-101 | what is requested is the wanted roles less those mapped, each under the id the server has for it |
| LiveRuns.GrantRolesLive | internal/provisioner/role_mappings.go:59-101 | exactly the wanted roles are added to one list; fails exactly when one is neither mapped nor there, and then changes nothing |
| LiveRuns.GrantClientRolesLive | internal/provisioner/scope_mappings.go:107-165 | a map of client roles, of subjects and scope owners alike: the entries before the first that fails are granted, and it fails exactly when one names a client or role that is not there |
| LiveRuns.EnsureRoleMappingsLive | internal/provisioner/role_mappings.go:45-57 | succeeds exactly when all roles exist; a holder's lists then end as what they were plus what is declared, and nobody else's change |
| LiveRuns.EnsureClientLive | internal/provisioner/clients.go:12-51 | the client is there, and exactly what is added: itself, and its service account unless it was merely found under a create-only strategy |
| LiveRuns.EnsureRolesLive | internal/provisioner/client_roles.go:10-35 | exactly these roles are added |
| LiveRequests.EnsureRolesFollows | internal/provisioner/client_roles.go:10-35 | the same of roles |
| LiveRequests.EnsureClientFollows | internal/provisioner/clients.go:12-51 | the same of clients |
| LiveRequests.EnsureScopeFollows | internal/provisioner/client_scopes.go:65-99 | the same of client scopes |
| LiveRequests.EnsureRoleMappingsFollows | internal/provisioner/role_mappings.go:45-57 | granting asks for each declared role that is missing once, under the id it has, and for nothing else |
| Requests.FollowsBoth | internal/provisioner/provisioner.go:65-271 | requests that follow what is declared, one part after the other, follow it together: nothing is asked for twice |
| GroupTrees.EnsureGroupsLive | internal/provisioner/groups.go:16-72 | every configured group is in its place, groups were created exactly where missing, every other keeps id and parent, and lists hold what they held plus what the trees declare |
| GroupTrees.EnsureGroupsSucceeds | internal/provisioner/groups.go:16-72 | a run over trees goes through exactly when every role they name exists |
| LiveRequests.EnsureGroupsFollows | internal/provisioner/groups.go:16-72 | the requests of a live run over trees of groups: each group in the tree created once or updated once or, create-only, left alone, and the declared roles that are missing, each once |
| GroupTrees.ResolveGroupPath | internal/provisioner/groups.go:108-125 | the walk over the path's segments |
| GroupTrees.WalkFollowsPaths | internal/provisioner/groups.go:108-125 | the walk finds a group exactly when the server gives that group this path |
| GroupTrees.ConfiguredPathsResolve | internal/provisioner/groups.go:101-125 | after a run the path of every configured group resolves to the group at that path |
| GroupTrees.WalkMeansLeads | internal/provisioner/groups.go:108-125 | after a run over trees, a path resolves exactly when it did before or leads to a configured group |
| Users.EnsureUserGroups | internal/provisioner/users.go:226-265 | the walk over a user's paths, skipping groups it is in and paths that lead nowhere |
| Users.JoinGroupsLive | internal/provisioner/users.go:226-265 | it never fails, and adds exactly the memberships missing of the groups that the paths lead to |
| Users.MembersWhereItLeads | internal/provisioner/users.go:250-253 | for each configured path, the user ends as a member there exactly if it was one or the path leads to a group |
| Users.EnsureUsersLive | internal/provisioner/users.go:19-102 | the users of a realm go through exactly when all their roles exist; each is then there with its roles, a member where its paths lead, and no other user is added |
| LiveRequests.EnsureUsersFollows | internal/provisioner/users.go:47-102 | the requests of a live run over users: each user that is missing is created once; each that was there is updated once under its own id, or not at all under a create-only strategy; each declared role and each membership a path calls for is asked for exactly when it is missing, and nothing else is asked for |
| Holdings.GrantingHolds | internal/provisioner/role_mappings.go:45-57 | granting goes through exactly when the roles exist, and then the holder has them |
| ServiceAccounts.EnsureClientsLive | internal/provisioner/provisioner.go:131-191 | after the client loop a client has a service account exactly if it had one, or is to have one and was not merely found; nothing but clients, their roles and accounts is added |
| Bookkeeping.BookkeepingHolds | internal/provisioner/dryrun.go:67-97 | over every sequence of calls, of all kinds that change the adapter's maps or its counter but the import of users with configured ids, the server is untouched; all ids ever handed out are synthetic and different, whether remembered or not; every remembered id was handed out; and nothing is forgotten or renamed unless it is created again |
| Bookkeeping.AskingTwice | internal/provisioner/dryrun.go:144-157 | asking again for a client or a service account changes nothing and gives the same id |
| Bookkeeping.WhatWasAskedShows | internal/provisioner/dryrun.go:16-34 | whatever a dry run has been asked to do has been reported, and whatever it has pretended to create is still remembered, where the reads look, after any number of further calls |
| DryRun.DryRunAdapter.NewID | internal/provisioner/dryrun.go:91-93 | a synthetic id unlike any handed out before, remembered or not |
| DryRun.DryRunAdapter.GetClients | internal/provisioner/dryrun.go:121-157 | answers as if the skipped writes had happened, makes up realm-management once per new realm, and sends the wrapped port no synthetic id |
| DryRun.DryRunAdapter.GetServiceAccountUser | internal/provisioner/dryrun.go:456-471 | allocates on first sight for a synthetic client, answers the same from then on, and asks the wrapped port otherwise |
| DryRun.DryRunAdapter.GetGroups | internal/provisioner/dryrun.go:479-493 | created groups first, nothing below a synthetic parent, the wrapped port otherwise |
| DryRun.DryRunAdapter.GetUsers | internal/provisioner/dryrun.go:264-292 | the whole list: the real user, then the pretended one |
| DryRun.DryRunAdapter.GetClientScopes | internal/provisioner/dryrun.go:533-571 | the real scopes of a real realm, then this run's in order of names, all of them |
| DryRun.DryRunAdapter.GetAuthenticationFlows | internal/provisioner/dryrun.go:782-821 | the same of flows |
| DryRun.DryRunAdapter.GetAuthenticationFlowExecutions | internal/provisioner/dryrun.go:857-868 | nothing for a flow of this run or realm, and the server's rows, or its failure, otherwise |
| DryRun.DryRunAdapter.GetProtocolMappers | internal/provisioner/dryrun.go:236-242 | nothing in a realm of this run or for an owner that does not exist yet, and the server's mappers otherwise |
| DryRun.DryRunAdapter.GetUserCredentials | internal/provisioner/dryrun.go:373-378 | nothing for a user who does not exist yet, and the server's credentials otherwise |
| DryRun.DryRunAdapter.GetRealmClientScopes | internal/provisioner/dryrun.go:591-597 | an empty list in a realm of this run, and the server's otherwise |
| DryRun.DryRunAdapter.GetClientScopeAssignments | internal/provisioner/dryrun.go:609-615 | an empty list for a client that does not exist yet, and the server's otherwise |
| DryRun.DryRunAdapter.GetOrganizations | internal/provisioner/dryrun.go:633-638 | none in a realm of this run, and the server's otherwise |
| DryRun.DryRunAdapter.GetOrganization | internal/provisioner/dryrun.go:643-648 | not found when it does not exist yet, and the server's answer otherwise |
| DryRun.DryRunAdapter.GetOrganizationGroups | internal/provisioner/dryrun.go:739-745 | nothing in an organization or below a parent that does not exist yet, and the server's groups otherwise |
| DryRun.DryRunAdapter.GetOrganizationGroupMembers | internal/provisioner/dryrun.go:765-770 | nobody in a group or organization that does not exist yet, and the server's members otherwise |
| DryRun.DryRunAdapter.GetIdentityProviderMappers | internal/provisioner/dryrun.go:971-976 | nothing for a provider of this run, and the server's mappers otherwise |
| DryRun.DryRunAdapter.GetOrganizationIdentityProviders | internal/provisioner/dryrun.go:998-1003 | nothing for an organization that does not exist yet, and the server's links otherwise |
| DryRun.DryRunAdapter.GetOrganizationMembers | internal/provisioner/dryrun.go:675-725 | the real members, then those this run has added that can be named, in order of names; a name is found by inverting the map of created users, which is one to one because ids are |
| DryRun.DryRunAdapter.GetIdentityProviders | internal/provisioner/dryrun.go:911-949 | the real providers, then this run's in order of aliases |
| DryRun.DryRunAdapter.CreateClient | internal/provisioner/dryrun.go:159-167 | reported, remembered under a new id, and kept from the server |
| DryRun.DryRunAdapter.AddRoleMappings | internal/provisioner/dryrun.go:432-454 | reported and not remembered |
| DryRun.DryRunAdapter.SetClientManagementPermissions | internal/provisioner/dryrun.go:1034-1047 | one permission per known scope and a resource, each under a new id of its own, none remembered |
| DryRun.DryRunAdapter.GetAuthzClientPolicies | internal/provisioner/dryrun.go:1049-1063 | the policy this run has made under that name, nothing on a synthetic resource server, the server's otherwise |
| DryRun.DryRunAdapter.CreateAuthzClientPolicy | internal/provisioner/dryrun.go:1065-1083 | a new id, remembered, so that the next lookup finds exactly this policy |
| DryRun.DryRunAdapter.GetAuthzScopePermission | internal/provisioner/dryrun.go:1091-1097 | UNANIMOUS for whatever does not exist yet, the server's otherwise |
| Simulation.SimFindClient | internal/provisioner/dryrun.go:121-157 | looking up a client keeps the two runs in step, the made-up realm-management included |
| Simulation.SimCreate | internal/provisioner/dryrun.go:159-222 | creating an object in both ties the two new ids together |
| Simulation.SimGrantRoles | internal/provisioner/dryrun.go:424-454 | granting to a list not granted to before keeps the runs in step though one side forgets the grant |
| Simulation.SimEnsureGroups | internal/provisioner/dryrun.go:479-510 | trees of groups keep them in step all the way down |
| Simulation.SimFindAccount | internal/provisioner/dryrun.go:456-471 | looking up a service account that both runs find, or neither, keeps them in step, though one side makes it up only now |
| Prediction.SimGrantAccounts | internal/provisioner/provisioner.go:200-205 | so do the deferred grants to service accounts |
| Prediction.DryRunPredictsRun | internal/provisioner/dryrun.go:16-34 | over any server and any valid config of realms, clients with service account roles, roles and groups, all accounts foreseen, the dry run leaves the server alone, ends as the run does, and reports the very requests the run issues, in order, up to a one-to-one renaming of new ids |
| ConfigRequests.ConfigFollows | internal/provisioner/provisioner.go:65-271 | the run that a dry run predicts creates or updates its realm, and then sends exactly the requests that what is declared of clients, roles, service accounts and groups calls for |
| Prediction.PredictionIsExact | internal/provisioner/dryrun.go:456-471 | if either run goes through, the other does exactly when every service account was foreseen: every client that was there had its account, and realm-management of a new realm is not left alone |
| Prediction.AccountToComeIsMissed | internal/provisioner/dryrun.go:456-471 | an existing client that is to get its account: the run goes through and the dry run stops |
| Prediction.RepeatedGroupIsReportedTwice | internal/provisioner/dryrun.go:432-437 | without distinct sibling names the dry run reports a grant the run does not make |
| ManagementPermissions.PolicyNameInjective | internal/provisioner/management_permissions.go:36-38 | policy names of dot-free scopes tell scope and client apart, dots in client ids notwithstanding |
| ManagementPermissions.PolicyNamesCanCollide | internal/provisioner/management_permissions.go:36-38 | a dot in a scope name is enough for two scopes to share a policy |
| ManagementPermissions.SameStringSet | internal/provisioner/management_permissions.go:377-401 | true exactly when the lists hold the same values, whatever the order and repetitions |
| ManagementPermissions.Provisioner.ResolveIndexedClientUUID | internal/provisioner/management_permissions.go:432-452 | with or without an index, the answer is a direct lookup's, and the index goes on agreeing with the server |
| ManagementPermissions.Provisioner.FindManagementPolicy | internal/provisioner/management_permissions.go:224-239 | the client policy with exactly this name, out of a substring search in any order |
| ManagementPermissions.Provisioner.EnsureManagementPolicy | internal/provisioner/management_permissions.go:162-216 | created, replaced or left alone; logic and the rest survive; refused when a policy of another kind holds the name |
| ManagementPermissions.PolicyIsOwned | internal/provisioner/management_permissions.go:162-216 | the policy that comes of it has the name of scope and client and names exactly the granted clients; a new one passes them and says whose it is, an old one keeps everything else; by one write or none |
| ManagementPermissions.Provisioner.AttachManagementPolicy | internal/provisioner/management_permissions.go:241-325 | attached beside whatever was, AFFIRMATIVE, by one write or none |
| ManagementPermissions.Provisioner.EnsureManagementPermissions | internal/provisioner/management_permissions.go:56-125 | one client's steps, in sorted scope order |
| ManagementPermissions.Provisioner.EnsureAll | internal/provisioner/provisioner.go:216-220 | the deferred targets of a realm |
| ManagementPermissions.RunKeeps | internal/provisioner/management_permissions.go:44-55 | along any run all earlier attachments and all other policies survive, and other permissions are as they were |
| ManagementPermissions.RunSucceeds | internal/provisioner/management_permissions.go:56-102 | a run ends well exactly when the resource server and all clients exist, every scope is offered, and no other kind of policy holds an owned name |
| ManagementPermissions.RunSettles | internal/provisioner/management_permissions.go:127-325 | afterwards every owned policy names exactly the configured clients, is attached, and the permission is AFFIRMATIVE |
| ManagementPermissions.NothingToWrite | internal/provisioner/management_permissions.go:104-125 | a run writes nothing exactly when everything was settled |
| ManagementPermissions.SecondRun | internal/provisioner/management_permissions.go:162-216 | a second run succeeds, and writes nothing exactly when grants that share a policy name are for the same clients |
| ManagementPermissions.EveryRunWrites | internal/provisioner/management_permissions.go:162-216 | and otherwise every later run goes through and writes, without end |
| ManagementPermissions.SharedPolicyIsRewritten | internal/provisioner/management_permissions.go:36-38 | a config and a server for which that is so, after any number of runs |
| ManagementPermissions.SensibleIsCoherent | internal/config/config.go:1700-1712 | distinct client ids and dot-free scopes ensure coherence |
| ManagementPermissions.GrantTakesEffect | internal/provisioner/management_permissions.go:24-28 | a settled scope is granted to a client exactly when the owned policy passes it or another attached policy does |
| ManagementPermissions.FlipIsRepaired | internal/provisioner/management_permissions.go:266-325 | a permission flipped to another strategy is put back by a single write, and nothing is detached |
| Organizations.Provisioner.EnsureOrganizationMembers | internal/provisioner/organizations.go:425-468 | members end as what they were plus the listed users that exist; no request is wasted |
| Organizations.Provisioner.EnsureOrganizationGroupMembers | internal/provisioner/organizations.go:242-288 | every request names a current member not yet in the group |
| Organizations.Provisioner.EnsureOrganizationGroup | internal/provisioner/organizations.go:132-220 | a group and all below it, against the member listing read once |
| Organizations.GroupsOfMeans | internal/provisioner/organizations.go:132-156 | the trees exist afterwards, and each group holds whom it held plus the organization's members listed for it |
| Organizations.GroupMembersEndUp | internal/provisioner/organizations.go:242-288 | each listed member is in each group that lists it, and nobody who is not a member joins |
| Organizations.Provisioner.EnsureOrganizationIdentityProviders | internal/provisioner/organizations.go:484-546 | the loop against the index, with its three ways to fail |
| Organizations.Provisioner.EnsureOrganizations | internal/provisioner/provisioner.go:246-268 | all organizations against an index that was right when it was read |
| Organizations.LinkAllKeeps | internal/provisioner/organizations.go:484-546 | after any outcome every provider has at most one owner; after success all aliases are linked and nothing else was |
| Organizations.StaleIndexIsSafe | internal/provisioner/provisioner.go:246-268 | with disjoint claims no link request is refused though the index is never refreshed, and the run ends well exactly when every claimed provider was there and nobody else's at the start |
| Organizations.OrganizationsSucceed | internal/provisioner/organizations.go:484-546 | without assuming disjoint claims: success is exactly disjoint claims and claimable providers |
| Organizations.SharedClaimIsRefused | internal/provisioner/organizations.go:520-546 | two claims on one free provider: the second request is sent and refused |
| Organizations.AllProvisionHolds | internal/provisioner/organizations.go:15-110 | every organization of a successful run is there, with the members it had and the listed users that exist, and its groups, each with the members it lists |
| Organizations.ValidateOrganizations | internal/config/config.go:1295-1365 | accepts exactly realms with the feature enabled whose organizations have different, usable names and usable texts, domains, attributes, members and group trees, and whose claims are usable and pairwise distinct across the realm |
| Organizations.ValidateOrganizationIdentityProviders | internal/config/config.go:1494-1520 | one organization's share of that, through the shared map |
| Organizations.ValidClaimsAreDisjoint | internal/config/config.go:1494-1520 | what is accepted makes the stale index safe |
| IdentityProviders.MergeStringMapField | internal/provisioner/attributes.go:44-67 | current entries but nulls, overridden by configured ones |
| IdentityProviders.BuildIdentityProviderBody | internal/provisioner/identity_providers.go:153-190 | the body holds each configured text and flag in its own field and each configured entry in its config, whatever is not configured as it was, and nothing the server owns |
| IdentityProviders.UpdateOverrides | internal/provisioner/identity_providers.go:140-190 | reading masked, merging and replacing stores exactly the old provider overridden by the config: each configured text, flag and entry in its own place, all others as they were; undeclared secrets stay; the organization link is neither sent nor changed |
| IdentityProviders.UpdateIsFixpoint | internal/provisioner/identity_providers.go:112-137 | updating twice is updating once |
| IdentityProviders.DeclaredIsStored | internal/provisioner/attributes.go:35-43 | every declared config value is stored, exactly unless it is the mask over another stored secret |
| IdentityProviders.CreateStoresDeclared | internal/provisioner/identity_providers.go:129-135 | a new provider holds each configured text, flag and entry in its own place, and nothing else |
| IdentityProviders.EnsureIdentityProviders | internal/provisioner/identity_providers.go:24-50 | all providers from one listing: each that was missing is created, each that was there updated field by field or, under a create-only strategy, left alone; no other is touched |
| IdentityProviders.SecondRunChangesNothing | internal/provisioner/identity_providers.go:24-50 | a second run leaves every provider as it is |
| RealmValidation.ValidateRealm | internal/config/config.go:1009-1080 | accepts exactly a realm whose name, scopes, clients with their roles, flow overrides and permissions, realm roles, users, groups, organizations, flows and providers meet their conditions, which include all a run relies on; a claimed provider names no domain but its organization's |
| Provision.EnsureScopesLive | internal/provisioner/provisioner.go:107-129 | step 4 goes through exactly when every scope type is known, the scopes are then there, and nothing else is added |
| Provision.FullClientsLive | internal/provisioner/provisioner.go:131-191 | step 5 goes through exactly when every flow a client binds to is listed; every client is then there with its roles, and with a service account if it had one, or is to have one and was not merely found |
| Provision.DeferredLive | internal/provisioner/provisioner.go:200-211 | the work put off goes through exactly when every account and every role it names is there, and every owner, client scopes included, has its roles afterwards |
| Provision.ThereIfDeclared | internal/provisioner/provisioner.go:193-211 | by then a role is there exactly if the config declares it or the realm had it |
| Progress.PermitLive | internal/provisioner/provisioner.go:213-220 | step 8 goes through exactly when scopes are offered, granted clients declared or there, and policy names not another kind's; every configured scope then settles exactly if grants that share a policy agree; other policies and permissions are as they were, and nothing is detached |
| Progress.SettledMeansCoherent | internal/provisioner/management_permissions.go:162-216 | permissions that are all settled come from such a config |
| Progress.SettledIsInEffect | internal/provisioner/management_permissions.go:24-38 | a scope is settled exactly when a client policy named prefix, scope and client id names the granted clients and no others, is attached, and is enough |
| RealmConfigs.DotFreeCoheres | internal/provisioner/management_permissions.go:36-38 | distinct client ids and dot-free scope names, as the server's own are, make grants of one policy agree |
| Progress.PeopleLive | internal/provisioner/provisioner.go:222-238 | steps 9 and 10 go through exactly when the roles that groups and users name are declared or were there; of the paths its config names, a user is then a member exactly where it was one or the path leads to a group declared or there before |
| Progress.OrgsLive | internal/provisioner/provisioner.go:240-268 | steps 11 and 12 go through exactly when every claimed provider is declared or there and nobody else's, though the index is read once; providers are created, updated or left alone as configured; listed members belong exactly if they are users of the realm; other organizations do not change |
| Progress.RealmProgress | internal/provisioner/provisioner.go:65-271 | any realm, whatever it holds, from a valid config: steps 3 to 12 go through exactly when the config names only flows, clients, roles, permission scopes and providers that it declares or that are there; then scopes, clients, roles, service accounts, grants, scope mappings, groups, users, memberships, providers, links and organizations all hold, permissions exactly if they agree, memberships exactly as far as what they name is there |
| Progress.WorkMeansMappings | internal/provisioner/provisioner.go:200-211 | once the work put off is done, every client's service account, every client's scope and every client scope has the roles its own config declares |
| RunRequests.RunFollows | internal/provisioner/provisioner.go:80-271 | whatever the realm holds and however the run ends, the directory is sent exactly the requests that what has been declared so far calls for; when it goes through, that is everything the config declares |
| Progress.BuiltInsMayBeNamed | README.md:563-593 | a config for a new realm may name whatever servers put there, the roles of realm-management among them: it counts as declared |
| Progress.AccountIsNotFound | internal/provisioner/provisioner.go:200-205 | a valid config that names nothing undeclared and goes through, but not with a create-only strategy: a service account for realm-management |
| RealmRun.RealmProvisioner.RunScopes | internal/provisioner/provisioner.go:107-129 | the scope loop: every scope with a type ends on that list of the realm alone and no other scope moves, no request is ignored, and the mappings put off are exactly the declared ones |
| RealmRun.RealmProvisioner.RunClients | internal/provisioner/provisioner.go:131-191 | the client loop, with bindings and scope assignment: of the scopes the realm has, those a client's config names end on the list it says and on that alone, and all others are where the client, or the realm for a new client, had them; the three lists and the index it leaves behind are exact |
| RealmRun.RealmProvisioner.RunDeferred | internal/provisioner/provisioner.go:200-211 | the deferred role grants, in order |
| RealmRun.RealmProvisioner.RunBefore | internal/provisioner/provisioner.go:80-129 | steps 3 and 4: bindings, then scopes against an index read once if anything needs it |
| RealmRun.RealmProvisioner.RunMiddle | internal/provisioner/provisioner.go:131-211 | steps 5 to 7 |
| RealmRun.RealmProvisioner.RunAfterFlows | internal/provisioner/provisioner.go:80-271 | steps 3 to 12, one after another, tied to the function the theorem is about |
| RealmRun.RealmProvisioner.ProvisionRealm | internal/provisioner/provisioner.go:65-271 | the run itself, over any realm, whatever it holds: it goes through exactly when its flows are there or can be created and nothing is named that is neither declared nor there; then flows are as configured, bindings are set, scopes are on the lists of the realm and of the clients, and all the progress theorem says holds; however it ends, it sends exactly the requests called for, and nothing that was there is lost |

## Modelling decisions

- Server ids are numbered; a permission's id is the pair of client and scope. A new realm holds `realm-management`, which
  is what the dry run assumes (internal/provisioner/dryrun.go:128-135), and in `Progress` and `RealmRun` whatever roles,
  clients and client scopes a parameter lists (`BuiltIn`). Enabling a client's service account creates its user, and a
  new client starts with the realm's default and optional scopes.
- The server refuses a realm binding to an alias that is no flow of the realm, and to put a user into a group of another
  realm.
- The endpoints of organizations see the realm's users and providers as they are when step 12 begins.
- A copied flow gives its subflows the alias "new name, space, old alias" (`FlowServer.CopiedAlias`); what requirement an
  appended authenticator starts with is a parameter of the server.
- A policy's clients and a permission's policies are sets on the server; a listing returns them in any order.
- `suggest` works on single-byte strings, so that lower-casing keeps lengths.
- Keys of an identity provider representation are an enumeration instead of strings.
- Errors are results with a kind; their texts, and requests that fail for reasons outside the model (network, tokens,
  permissions of the tool's own account), are not modelled.
- The representation fields a body builder copies are carried only where a property depends on them.

## Left out

- Dry run of users with a configured id: `PartialImportUsers` records an id without the synthetic prefix (internal/provisioner/dryrun.go:311-323), so later reads keyed by it are forwarded.
- Prediction.DryRunPredictsRun: the dry run of organizations and of authentication execution requirements, which the adapter documents as under-reported, and of scope mappings, management permissions, users and client scopes; what new realms come with beside realm-management, which the adapter does not see; the simulation covers realms, clients with service account roles, client and realm roles, and groups with role grants.
- LiveRuns.EnsureClientLive: the fields of a client's body, flow overrides among them; `RunClients` resolves the overrides and fails if one does not resolve.
- RealmRun.RealmProvisioner.RunScopes: protocol mappers of client scopes, which are created or updated by name.
- RealmRun.RealmProvisioner.RunClients: protocol mappers of clients, which are created or updated by name.
- RealmRun.RealmProvisioner.ProvisionRealm: the client scopes a new realm comes with are on neither of its lists, unless the config puts them there.
- IdentityProviders.EnsureIdentityProviders: identity provider mappers, which are created or updated by name, and the warning about broker flows that are not there.
- RealmValidation.ValidateRealm: checks of fields the model does not carry: further texts of realms, scopes, clients and users, credentials, mappers, ACR maps, and the `enabled` flag of permission blocks; that realms have different names, for one realm is validated at a time. ACR values are checked in `ConfigMaps`.
- Users.EnsureUsersLive: passwords, credentials and configured ids of users.
- Organizations.Provisioner.EnsureOrganizations: updates of organizations and organization groups that are there, which write texts, domains and attributes unless the strategy is to create only, and the refusal to change an alias.
- Default groups, required actions: create-or-update by name, which would only add easy members.
- `expandStringMap` on colliding keys: the outcome depends on map order, so there is nothing to prove.
- `collectUnknownAuthenticators`, `problemsFor`, version and requirement checks: small lookups.
- `internal/client/client.go` (HTTP, JSON, tokens, retries), `cmd/`, `internal/cli`, logging and YAML decoding: only the endpoint semantics the client's comments record are kept, as contracts of the model servers.
- Mutex and atomic use in the adapter: the provisioner calls it sequentially.
