/** Runs of administration requests against the configuration store. */
module AdminRuns {
  import opened Prelude
  import opened Store
  import ModelSync

  /** The requests of the administration API that write configuration. What a body field is checked
      against outside the store (strategy names, parameters, passwords) is part of the request. */
  datatype Request =
    | NewProvider(name: string, lowered: string)
    | ChangeProvider(id: Id, rename: Option<string>)
    | RemoveProvider(id: Id)
    | SyncProvider(id: Id, upstream: seq<string>)
    | NewModel(provider: Id, upstreamId: string, enabled: bool)
    | ChangeModel(id: Id, newProvider: Option<Id>, newUpstreamId: Option<string>, active: Option<bool>)
    | RemoveModel(id: Id)
    | NewPipeline(pipelineName: string, judge: Id, members: seq<Id>, strategyKnown: bool, paramsValid: bool)
    | ChangePipeline(id: Id, newName: Option<string>, newJudge: Option<Id>, newMembers: Option<seq<Id>>,
                     strategyKnown: bool, paramsValid: bool, nulls: bool)
    | RemovePipeline(id: Id)
    | NewUser(username: string, admin: bool, hasPassword: bool)
    | ChangeUser(id: Id, role: Option<bool>, active: Option<bool>, passwordOk: bool)
    | RemoveUser(id: Id)
    | NewKey(id: Id)
    | RemoveKey(id: Id, key: Id)
    | SetGrants(id: Id, onPipelines: seq<Id>, onModels: seq<Id>, onProviders: seq<Id>)

  /** The rows of a provider, in some order. */
  method ListRows(models: map<Id, Model>, provider: Id) returns (rows: seq<Id>)
    ensures ModelSync.RowsOf(models, provider, rows)
  {
    var rest := ModelsOf(models, provider);
    rows := [];
    while rest != {}
      invariant Distinct(rows) && rest <= ModelsOf(models, provider)
      invariant forall m :: m in ModelsOf(models, provider) <==> m in rest || m in rows
      invariant forall m :: m in rest ==> m !in rows
      decreases |rest|
    {
      var m :| m in rest;
      rest := rest - {m};
      rows := rows + [m];
    }
  }

  /** One request, whatever its outcome: an error leaves the store as it was. */
  method Handle(db: Database, request: Request)
    requires db.Valid()
    modifies db
    ensures db.Valid() && (HasAdmin(old(db.users)) ==> HasAdmin(db.users))
  {
    hide ModelsRefer, JudgesRefer, MembersRefer, GrantsOwned, Owned, GrantsRefer, UniqueGrants, UniquePipelineNames;
    hide UniqueProviders, UniqueUsernames, HasAdmin, CanGo, GrantsWithout, MembersWithout, Broken, GrantsOf, Replaced, AllIn;
    hide NameTaken, ModelSync.Synced, GrantsNotOf, NotOwnedBy, OthersKept, ModelsOf;
    hide NoGrantOn, Patched, ModelPatched, ProviderNamed, UserNamed, ModelSync.Retired;
    match request
    case NewProvider(name, lowered) =>
      var r := db.CreateProvider(name, lowered);
    case ChangeProvider(id, rename) =>
      var r := db.UpdateProvider(id, rename);
    case RemoveProvider(id) =>
      var r := db.DeleteProvider(id);
    case SyncProvider(id, upstream) =>
      if id in db.providers {
        var rows := ListRows(db.models, id);
        var added, removed, ids := ModelSync.SyncModels(db, id, upstream, rows);
      }
    case NewModel(provider, upstreamId, enabled) =>
      var r := db.CreateModel(provider, upstreamId, enabled);
    case ChangeModel(id, provider, upstreamId, active) =>
      var r := db.UpdateModel(id, provider, upstreamId, active);
    case RemoveModel(id) =>
      var r := db.DeleteModel(id);
    case NewPipeline(name, judge, members, strategyKnown, paramsValid) =>
      var r, rows := db.CreatePipeline(name, judge, members, strategyKnown, paramsValid);
    case ChangePipeline(id, name, judge, members, strategyKnown, paramsValid, nulls) =>
      var r, rows := db.UpdatePipeline(id, name, judge, members, strategyKnown, paramsValid, nulls);
    case RemovePipeline(id) =>
      var r := db.DeletePipeline(id);
    case NewUser(username, admin, hasPassword) =>
      var r := db.CreateUser(username, admin, hasPassword);
    case ChangeUser(id, role, active, passwordOk) =>
      var r := db.UpdateUser(id, role, active, passwordOk);
    case RemoveUser(id) =>
      var r := db.DeleteUser(id);
    case NewKey(id) =>
      var r := db.CreateKey(id);
    case RemoveKey(id, key) =>
      var r := db.DeleteKey(id, key);
    case SetGrants(id, onPipelines, onModels, onProviders) =>
      var r := db.PutGrants(id, onPipelines, onModels, onProviders);
  }

  /** Whatever the requests and their order: every reference resolves, what has to be unique is, and an
      enabled administrator remains. */
  method Serve(db: Database, requests: seq<Request>)
    requires db.Valid()
    modifies db
    ensures db.Valid() && (HasAdmin(old(db.users)) ==> HasAdmin(db.users))
  {
    hide HasAdmin;
    for i := 0 to |requests|
      invariant db.Valid() && (HasAdmin(old(db.users)) ==> HasAdmin(db.users))
    {
      Handle(db, requests[i]);
    }
  }
}
