/** The admin store row by row: which rows each deletion takes, what the invariant says, and what an
    update leaves alone. */
module StoreQueries {
  import opened Prelude
  import opened Store

  /** What a valid store promises a reader of its tables. */
  lemma {:induction false} ValidMeans(db: Database)
    requires db.Valid()
    ensures forall m :: m in db.models ==> db.models[m].provider in db.providers
    ensures forall p :: p in db.pipelines ==> db.pipelines[p].judge in db.models
    ensures forall m :: m in db.members ==> db.members[m].pipeline in db.pipelines && db.members[m].model in db.models
    ensures forall g :: g in db.grants ==>
      && db.grants[g].user in db.users
      && match db.grants[g].kind
         case OnPipeline => db.grants[g].target in db.pipelines
         case OnModel => db.grants[g].target in db.models
         case OnProvider => db.grants[g].target in db.providers
    ensures forall k :: k in db.keys ==> db.keys[k] in db.users
    ensures forall s :: s in db.sessions ==> db.sessions[s] in db.users
    ensures forall g, h :: g in db.grants && h in db.grants && g != h ==> db.grants[g] != db.grants[h]
    ensures forall p, q :: p in db.pipelines && q in db.pipelines && p != q ==> db.pipelines[p].name != db.pipelines[q].name
    ensures forall p, q :: p in db.providers && q in db.providers && p != q ==>
      db.providers[p].name != db.providers[q].name && db.providers[p].slug != db.providers[q].slug
    ensures forall p :: p in db.providers ==> db.providers[p].slug != ""
    ensures forall u, v :: u in db.users && v in db.users && u != v ==> db.users[u].username != db.users[v].username
    ensures 0 !in db.users
  {
  }

  /** The rows that are left when models go. A pipeline goes with its judge, or with the last of its
      members; a member with its model or its pipeline; a grant with its target. */
  lemma {:induction false} RowsLeft(pipelines: map<Id, Pipeline>, members: map<Id, Member>, grants: map<Id, Grant>, ids: set<Id>)
    ensures var broken := Broken(pipelines, members, ids);
      && (forall p :: p in broken <==>
            && p in pipelines
            && (pipelines[p].judge in ids
                || ((exists m :: m in members && members[m].pipeline == p)
                    && forall m :: m in members && members[m].pipeline == p ==> members[m].model in ids)))
      && var left, kept := MembersWithout(members, broken, ids), GrantsWithout(GrantsWithout(grants, OnPipeline, broken), OnModel, ids);
      && (forall m :: m in left <==> m in members && members[m].pipeline !in broken && members[m].model !in ids)
      && (forall m :: m in left ==> left[m] == members[m])
      && (forall g :: g in kept <==>
            && g in grants
            && (grants[g].kind == OnPipeline ==> grants[g].target !in broken)
            && (grants[g].kind == OnModel ==> grants[g].target !in ids))
      && (forall g :: g in kept ==> kept[g] == grants[g])
  {
  }

  /** A provider takes its own models with it, and the grants on itself. */
  lemma {:induction false} ProviderRows(models: map<Id, Model>, grants: map<Id, Grant>, id: Id)
    ensures forall m :: m in models - ModelsOf(models, id) <==> m in models && models[m].provider != id
    ensures var kept := GrantsWithout(grants, OnProvider, {id});
      && (forall g :: g in kept <==> g in grants && !(grants[g].kind == OnProvider && grants[g].target == id))
      && (forall g :: g in kept ==> kept[g] == grants[g])
  {
  }

  /** A user takes exactly the own grants, keys and sessions along. */
  lemma {:induction false} UserRows(grants: map<Id, Grant>, rows: map<Id, Id>, u: Id)
    ensures forall g :: g in GrantsNotOf(grants, u) <==> g in grants && grants[g].user != u
    ensures forall g :: g in GrantsNotOf(grants, u) ==> GrantsNotOf(grants, u)[g] == grants[g]
    ensures forall r :: r in NotOwnedBy(rows, u) <==> r in rows && rows[r] != u
    ensures forall r :: r in NotOwnedBy(rows, u) ==> NotOwnedBy(rows, u)[r] == rows[r]
  {
  }

  /** After a grant request, a user may use a thing exactly when it was listed under its kind. */
  lemma {:induction false} GrantedIff(grants: map<Id, Grant>, u: Id, pipelines: seq<Id>, models: seq<Id>, providers: seq<Id>,
        kind: Kind, target: Id)
    requires GrantsOf(grants, u) == Requested(set t | t in pipelines, set t | t in models, set t | t in providers)
    ensures (exists g :: g in grants && grants[g] == Grant(u, kind, target)) <==>
      match kind
      case OnPipeline => target in pipelines
      case OnModel => target in models
      case OnProvider => target in providers
  {
    if g :| g in grants && grants[g] == Grant(u, kind, target) {
      assert (kind, target) in GrantsOf(grants, u);
    }
    if (kind, target) in GrantsOf(grants, u) {
      var g :| g in grants && grants[g].user == u && (grants[g].kind, grants[g].target) == (kind, target);
      assert grants[g] == Grant(u, kind, target);
    }
  }

  /** Names are taken by the rows that carry them, and by no others. */
  lemma {:induction false} NamesTaken(providers: map<Id, Provider>, users: map<Id, User>, pipelines: map<Id, Pipeline>, name: string)
    ensures !ProviderNamed(providers, name) <==> forall p :: p in providers ==> providers[p].name != name
    ensures !UserNamed(users, name) <==> forall u :: u in users ==> users[u].username != name
    ensures !NameTaken(pipelines, name) <==> forall p :: p in pipelines ==> pipelines[p].name != name
  {
  }

  /** A partial update changes the fields that are given and no other. */
  lemma {:induction false} PatchesAre(row: Pipeline, name: Option<string>, judge: Option<Id>, model: Model, provider: Option<Id>,
        upstream: Option<string>, enabled: Option<bool>)
    ensures var p := Patched(row, name, judge);
      && (name.None? ==> p.name == row.name) && (name.Some? ==> p.name == name.value)
      && (judge.None? ==> p.judge == row.judge) && (judge.Some? ==> p.judge == judge.value)
    ensures var m := ModelPatched(model, provider, upstream, enabled);
      && (provider.None? ==> m.provider == model.provider) && (provider.Some? ==> m.provider == provider.value)
      && (upstream.None? ==> m.upstream == model.upstream) && (upstream.Some? ==> m.upstream == upstream.value)
      && (enabled.None? ==> m.enabled == model.enabled) && (enabled.Some? ==> m.enabled == enabled.value)
      && m.missing == model.missing
  {
  }

  /** Somebody can be deleted or demoted exactly when they are not the built-in administrator, and another
      enabled administrator is there if they are one. */
  lemma {:induction false} CanGoIff(users: map<Id, User>, id: Id)
    requires id in users
    ensures CanGo(users, id) <==>
      && users[id].username != "admin"
      && (users[id].admin ==> exists u :: u in users && u != id && users[u].admin && users[u].enabled)
    ensures HasAdmin(users) <==> exists u :: u in users && users[u].admin && users[u].enabled
  {
    assert forall u :: EnabledAdmin(users, u) <==> u in users && users[u].admin && users[u].enabled;
  }
}
