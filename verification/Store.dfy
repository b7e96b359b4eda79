/** The configuration store: providers, models, pipelines with their members, users and grants, with
    the statements of each admin request in the order the service sends them. */
module Store {
  import opened Prelude
  import Slug

  type Id = nat

  datatype Provider = Provider(name: string, slug: string)

  datatype Model = Model(provider: Id, upstream: string, enabled: bool, missing: bool)

  datatype Pipeline = Pipeline(name: string, judge: Id)

  datatype Member = Member(pipeline: Id, model: Id, order: nat)

  datatype User = User(username: string, admin: bool, enabled: bool)

  datatype Kind = OnPipeline | OnModel | OnProvider

  datatype Grant = Grant(user: Id, kind: Kind, target: Id)

  /** The reply of a request: a value, or the status code of an error. */
  datatype Reply<+T> = Ok(value: T) | Error(status: nat)

  // ---- Integrity ---------------------------------------------------------------------------

  predicate ModelsRefer(models: map<Id, Model>, providers: set<Id>) {
    forall m :: m in models ==> models[m].provider in providers
  }

  predicate JudgesRefer(pipelines: map<Id, Pipeline>, models: set<Id>) {
    forall p :: p in pipelines ==> pipelines[p].judge in models
  }

  predicate MembersRefer(members: map<Id, Member>, pipelines: set<Id>, models: set<Id>) {
    forall m :: m in members ==> members[m].pipeline in pipelines && members[m].model in models
  }

  predicate GrantsOwned(grants: map<Id, Grant>, users: set<Id>) {
    forall g :: g in grants ==> grants[g].user in users
  }

  predicate Owned(rows: map<Id, Id>, users: set<Id>) {
    forall r :: r in rows ==> rows[r] in users
  }

  function Targets(kind: Kind, pipelines: set<Id>, models: set<Id>, providers: set<Id>): set<Id> {
    match kind
    case OnPipeline => pipelines
    case OnModel => models
    case OnProvider => providers
  }

  predicate GrantsRefer(grants: map<Id, Grant>, pipelines: set<Id>, models: set<Id>, providers: set<Id>) {
    forall g :: g in grants ==> grants[g].target in Targets(grants[g].kind, pipelines, models, providers)
  }

  predicate UniqueGrants(grants: map<Id, Grant>) {
    forall g, h :: g in grants && h in grants && grants[g] == grants[h] ==> g == h
  }

  predicate UniquePipelineNames(pipelines: map<Id, Pipeline>) {
    forall p, q :: p in pipelines && q in pipelines && pipelines[p].name == pipelines[q].name ==> p == q
  }

  predicate UniqueProviders(providers: map<Id, Provider>) {
    && (forall p, q :: p in providers && q in providers && providers[p].name == providers[q].name ==> p == q)
    && (forall p, q :: p in providers && q in providers && providers[p].slug == providers[q].slug ==> p == q)
    && (forall p :: p in providers ==> providers[p].slug != "")
  }

  predicate UniqueUsernames(users: map<Id, User>) {
    0 !in users && forall u, v :: u in users && v in users && users[u].username == users[v].username ==> u == v
  }

  predicate EnabledAdmin(users: map<Id, User>, u: Id) {
    u in users && users[u].admin && users[u].enabled
  }

  /** Not the built-in administrator, and not the last enabled one. */
  ghost predicate CanGo(users: map<Id, User>, id: Id)
    requires id in users
  {
    users[id].username != "admin" && (users[id].admin ==> exists u :: u != id && EnabledAdmin(users, u))
  }

  ghost predicate HasAdmin(users: map<Id, User>) {
    exists u :: EnabledAdmin(users, u)
  }

  function ModelsOf(models: map<Id, Model>, provider: Id): set<Id> {
    set m | m in models && models[m].provider == provider
  }

  function SlugsOf(providers: map<Id, Provider>): set<string> {
    set p | p in providers :: providers[p].slug
  }

  predicate NoGrantOn(grants: map<Id, Grant>, kind: Kind, target: Id) {
    forall g :: g in grants ==> !(grants[g].kind == kind && grants[g].target == target)
  }

  function Patched(row: Pipeline, name: Option<string>, judge: Option<Id>): Pipeline {
    Pipeline(if name.Some? then name.value else row.name, if judge.Some? then judge.value else row.judge)
  }

  function ModelPatched(row: Model, provider: Option<Id>, upstream: Option<string>, enabled: Option<bool>): Model {
    row.(provider := if provider.Some? then provider.value else row.provider,
      upstream := if upstream.Some? then upstream.value else row.upstream,
      enabled := if enabled.Some? then enabled.value else row.enabled)
  }

  // ---- What a model deletion leaves ----------------------------------------------------------

  predicate HasMember(members: map<Id, Member>, p: Id) {
    exists m :: m in members && members[m].pipeline == p
  }

  /** All members of the pipeline are among the deleted models. */
  predicate Emptied(members: map<Id, Member>, p: Id, ids: set<Id>) {
    HasMember(members, p) && forall m :: m in members && members[m].pipeline == p ==> members[m].model in ids
  }

  /** Pipelines that cannot run without the models: the judge is gone, or every member is. */
  function Broken(pipelines: map<Id, Pipeline>, members: map<Id, Member>, ids: set<Id>): set<Id> {
    set p | p in pipelines && (pipelines[p].judge in ids || Emptied(members, p, ids))
  }

  predicate NoMemberIn(members: map<Id, Member>, ids: set<Id>) {
    forall m :: m in members ==> members[m].model !in ids
  }

  predicate NoJudgeIn(pipelines: map<Id, Pipeline>, ids: set<Id>) {
    forall p :: p in pipelines ==> pipelines[p].judge !in ids
  }

  /** The three queries of the cascade. */
  function Using(members: map<Id, Member>, ids: set<Id>): set<Id> {
    set m | m in members && members[m].model in ids :: members[m].pipeline
  }

  function Staffed(members: map<Id, Member>): set<Id> {
    set m | m in members :: members[m].pipeline
  }

  function JudgedBy(pipelines: map<Id, Pipeline>, ids: set<Id>): set<Id> {
    set p | p in pipelines && pipelines[p].judge in ids
  }

  function MembersWithout(members: map<Id, Member>, pipelines: set<Id>, models: set<Id>): map<Id, Member> {
    map m | m in members && members[m].pipeline !in pipelines && members[m].model !in models :: members[m]
  }

  function GrantsWithout(grants: map<Id, Grant>, kind: Kind, targets: set<Id>): map<Id, Grant> {
    map g | g in grants && !(grants[g].kind == kind && grants[g].target in targets) :: grants[g]
  }

  /** The rest of the store is still fit to run: a pipeline that survives has its judge, all of its
      members outside the deleted models, and at least one member if it had any. */
  lemma {:induction false} SurvivorsRun(pipelines: map<Id, Pipeline>, members: map<Id, Member>, ids: set<Id>, p: Id)
    requires p in pipelines && p !in Broken(pipelines, members, ids)
    ensures var left := MembersWithout(members, Broken(pipelines, members, ids), ids);
      && pipelines[p].judge !in ids
      && (HasMember(members, p) <==> HasMember(left, p))
      && (forall m :: m in members && members[m].pipeline == p ==> (m in left <==> members[m].model !in ids))
  {
    var left := MembersWithout(members, Broken(pipelines, members, ids), ids);
    if HasMember(members, p) {
      var m :| m in members && members[m].pipeline == p && members[m].model !in ids;
      assert m in left;
    }
    assert HasMember(left, p) ==> HasMember(members, p);
  }

  /** Nothing more is deleted than has to be: keeping a broken pipeline would leave it without its judge
      or without any member. */
  lemma {:induction false} BrokenCannotRun(pipelines: map<Id, Pipeline>, members: map<Id, Member>, ids: set<Id>, p: Id)
    requires p in pipelines
    ensures p in Broken(pipelines, members, ids)
       <==> pipelines[p].judge in ids || (HasMember(members, p) && !HasMember(MembersWithout(members, {}, ids), p))
  {
    var left := MembersWithout(members, {}, ids);
    if Emptied(members, p, ids) {
      assert !HasMember(left, p);
    } else if HasMember(members, p) {
      var m :| m in members && members[m].pipeline == p && members[m].model !in ids;
      assert m in left;
    }
  }

  // ---- Replaced member lists -----------------------------------------------------------------

  /** `rows` are the new member rows of the pipeline, in order; nothing else has changed. */
  ghost predicate Replaced(before: map<Id, Member>, after: map<Id, Member>, p: Id, models: seq<Id>, rows: seq<Id>) {
    && |rows| == |models| && Distinct(rows)
    && (forall m :: m in after <==> (m in before && before[m].pipeline != p) || m in rows)
    && (forall m :: m in before && before[m].pipeline != p ==> m !in rows && after[m] == before[m])
    && (forall i :: 0 <= i < |rows| ==> after[rows[i]] == Member(p, models[i], i))
  }

  /** The member rows of a pipeline, ordered as the service reads them. */
  ghost predicate Ordered(members: map<Id, Member>, p: Id, q: seq<Id>) {
    && Distinct(q)
    && (forall m :: m in q <==> m in members && members[m].pipeline == p)
    && (forall i, j :: 0 <= i < j < |q| ==> members[q[i]].order <= members[q[j]].order)
  }

  lemma {:induction false} DistinctLength<T>(a: seq<T>, b: seq<T>)
    requires Distinct(a) && forall x :: x in a ==> x in b
    ensures |a| <= |b|
  {
    if a != [] {
      assert a[0] in a;
      var k :| 0 <= k < |b| && b[k] == a[0];
      forall x | x in a[1..] ensures x in Without(b, k) {
        var i :| 0 <= i < |a[1..]| && a[1..][i] == x;
        assert x == a[i + 1] && x != a[0] && x in a;
        var j :| 0 <= j < |b| && b[j] == x;
        assert Without(b, k)[if j < k then j else j - 1] == x;
      }
      DistinctLength(a[1..], Without(b, k));
    }
  }

  lemma {:induction false} Rising(f: seq<nat>, k: nat)
    requires k < |f|
    requires forall i, j :: 0 <= i < j < |f| ==> f[i] < f[j]
    ensures f[k] >= k && f[|f| - 1] - f[k] >= |f| - 1 - k
    decreases |f| - k
  {
    AtLeastIndex(f, k);
    if k + 1 < |f| {
      Rising(f, k + 1);
    }
  }

  lemma {:induction false} AtLeastIndex(f: seq<nat>, k: nat)
    requires k < |f|
    requires forall i, j :: 0 <= i < j < |f| ==> f[i] < f[j]
    ensures f[k] >= k
  {
    if k > 0 {
      AtLeastIndex(f, k - 1);
    }
  }

  /** Reading the members back in order gives the list that was written. */
  lemma {:induction false} ReplacedReadsBack(before: map<Id, Member>, after: map<Id, Member>, p: Id, models: seq<Id>,
        rows: seq<Id>, q: seq<Id>)
    requires Replaced(before, after, p, models, rows) && Ordered(after, p, q)
    ensures |q| == |models| && forall i :: 0 <= i < |q| ==> after[q[i]].model == models[i]
  {
    forall m ensures m in q <==> m in rows {
      if m in rows {
        var i :| 0 <= i < |rows| && rows[i] == m;
        assert after[m] == Member(p, models[i], i);
      }
    }
    DistinctLength(q, rows);
    DistinctLength(rows, q);
    forall i | 0 <= i < |q| ensures exists k :: 0 <= k < |rows| && q[i] == rows[k] && after[q[i]].order == k {
      assert q[i] in q;
      var k :| 0 <= k < |rows| && rows[k] == q[i];
    }
    var f := seq(|q|, i requires 0 <= i < |q| => after[q[i]].order);
    forall i | 0 <= i < |q| ensures after[q[i]].model == models[i] {
      Rising(f, i);
      assert f[|f| - 1] < |rows|;
      assert f[i] == i;
    }
  }

  // ---- Requested grants ----------------------------------------------------------------------

  function Pairs(kind: Kind, targets: set<Id>): set<(Kind, Id)> {
    set t | t in targets :: (kind, t)
  }

  function Requested(pipelines: set<Id>, models: set<Id>, providers: set<Id>): set<(Kind, Id)> {
    Pairs(OnPipeline, pipelines) + Pairs(OnModel, models) + Pairs(OnProvider, providers)
  }

  predicate GrantsSound(grants: map<Id, Grant>, users: set<Id>, pipelines: set<Id>, models: set<Id>, providers: set<Id>) {
    GrantsOwned(grants, users) && UniqueGrants(grants) && GrantsRefer(grants, pipelines, models, providers)
  }

  function GrantsNotOf(grants: map<Id, Grant>, u: Id): map<Id, Grant> {
    map g | g in grants && grants[g].user != u :: grants[g]
  }

  function NotOwnedBy(rows: map<Id, Id>, u: Id): map<Id, Id> {
    map r | r in rows && rows[r] != u :: rows[r]
  }

  predicate ProviderNamed(providers: map<Id, Provider>, name: string) {
    exists p :: p in providers && providers[p].name == name
  }

  predicate UserNamed(users: map<Id, User>, username: string) {
    exists u :: u in users && users[u].username == username
  }

  predicate NameTaken(pipelines: map<Id, Pipeline>, name: string) {
    exists p :: p in pipelines && pipelines[p].name == name
  }

  predicate AllIn(ids: seq<Id>, known: set<Id>) {
    forall i :: 0 <= i < |ids| ==> ids[i] in known
  }

  function GrantsOf(grants: map<Id, Grant>, u: Id): set<(Kind, Id)> {
    set g | g in grants && grants[g].user == u :: (grants[g].kind, grants[g].target)
  }

  ghost predicate OthersKept(before: map<Id, Grant>, after: map<Id, Grant>, u: Id) {
    && (forall g :: g in before && before[g].user != u ==> g in after && after[g] == before[g])
    && (forall g :: g in after && after[g].user != u ==> g in before && before[g] == after[g])
  }

  // ---- The store -----------------------------------------------------------------------------

  /** SQLite gives a new row the number after the greatest one in use, so numbers are used again. */
  method FreshId(used: set<Id>) returns (id: Id)
    ensures id > 0 && forall k :: k in used ==> k < id
    ensures id == 1 || id - 1 in used
  {
    id := 1;
    var rest := used;
    while rest != {}
      invariant id > 0 && rest <= used && forall k :: k in used && k !in rest ==> k < id
      invariant id == 1 || id - 1 in used
      decreases |rest|
    {
      var k :| k in rest;
      rest := rest - {k};
      if k >= id {
        id := k + 1;
      }
    }
  }

  /** The row of a new provider: it is stored with an empty slug first, to learn its number, and the
      slug is filled in before the request is committed. */
  method ProviderRow(before: map<Id, Provider>, name: string, lowered: string) returns (id: Id, row: Provider)
    ensures id !in before && row == Provider(name, row.slug)
    ensures Slug.Derived(lowered, SlugsOf(before) + {""}, "provider-" + Decimal(id), row.slug)
    ensures row.slug !in SlugsOf(before) && row.slug != ""
  {
    hide Slug.Derived, Decimal, SlugsOf;
    id := FreshId(before.Keys);
    SlugsGrow(before, id, Provider(name, ""));
    var taken := SlugsOf(before[id := Provider(name, "")]);
    var slug := Slug.DeriveSlug(lowered, taken, "provider-" + Decimal(id));
    Slug.DerivedOnce(lowered, taken, "provider-" + Decimal(id), slug);
    row := Provider(name, slug);
  }

  /** The rows of a new member list, numbered in order. */
  method MemberRows(ghost before: map<Id, Member>, left: map<Id, Member>, p: Id, modelIds: seq<Id>,
        ghost pipelines: set<Id>, ghost models: set<Id>)
    returns (after: map<Id, Member>, rows: seq<Id>)
    requires left == MembersWithout(before, {p}, {}) && MembersRefer(left, pipelines, models)
    requires p in pipelines && AllIn(modelIds, models)
    ensures Replaced(before, after, p, modelIds, rows) && MembersRefer(after, pipelines, models)
  {
    ReplacedStart(before, p);
    hide Replaced, MembersWithout, MembersRefer;
    after, rows := left, [];
    assert modelIds[..0] == [];
    for i := 0 to |modelIds|
      invariant |rows| == i && Replaced(before, after, p, modelIds[..i], rows) && MembersRefer(after, pipelines, models)
    {
      var row := FreshId(after.Keys);
      ReplacedStep(before, after, p, modelIds[..i], rows, row, modelIds[i], pipelines, models);
      assert modelIds[..i + 1] == modelIds[..i] + [modelIds[i]];
      after := after[row := Member(p, modelIds[i], i)];
      rows := rows + [row];
    }
    assert modelIds[..|modelIds|] == modelIds;
  }

  /** Adds one grant row for each target of a kind. */
  method AddGrantRows(before: map<Id, Grant>, user: Id, kind: Kind, targets: set<Id>, ghost original: map<Id, Grant>,
                      ghost users: set<Id>, ghost pipelines: set<Id>, ghost models: set<Id>, ghost providers: set<Id>)
    returns (grants: map<Id, Grant>)
    requires GrantsSound(before, users, pipelines, models, providers) && OthersKept(original, before, user)
    requires user in users && targets <= Targets(kind, pipelines, models, providers)
    requires GrantsOf(before, user) !! Pairs(kind, targets)
    ensures GrantsSound(grants, users, pipelines, models, providers) && OthersKept(original, grants, user)
    ensures GrantsOf(grants, user) == GrantsOf(before, user) + Pairs(kind, targets)
  {
    hide GrantsSound, OthersKept, GrantsOf, Targets;
    grants := before;
    var rest := targets;
    while rest != {}
      invariant GrantsSound(grants, users, pipelines, models, providers) && OthersKept(original, grants, user)
      invariant rest <= targets && GrantsOf(grants, user) == GrantsOf(before, user) + Pairs(kind, targets - rest)
      decreases |rest|
    {
      var t :| t in rest;
      var id := FreshId(grants.Keys);
      assert (kind, t) in Pairs(kind, targets);
      GrantAdded(original, grants, id, user, kind, t, users, pipelines, models, providers);
      assert Pairs(kind, targets - (rest - {t})) == Pairs(kind, targets - rest) + {(kind, t)};
      rest := rest - {t};
      grants := grants[id := Grant(user, kind, t)];
    }
    assert targets - {} == targets;
  }

  /** `replace_user_grants`: all rows of the user are deleted, then the requested ones are added. */
  method GrantRowsFor(before: map<Id, Grant>, user: Id, onPipelines: set<Id>, onModels: set<Id>, onProviders: set<Id>,
                      ghost users: set<Id>, ghost pipelines: set<Id>, ghost models: set<Id>, ghost providers: set<Id>)
    returns (grants: map<Id, Grant>)
    requires GrantsSound(before, users, pipelines, models, providers)
    requires user in users && onPipelines <= pipelines && onModels <= models && onProviders <= providers
    ensures GrantsSound(grants, users, pipelines, models, providers) && OthersKept(before, grants, user)
    ensures GrantsOf(grants, user) == Requested(onPipelines, onModels, onProviders)
  {
    UserGrantsGone(before, user, users, pipelines, models, providers);
    hide GrantsSound, OthersKept, GrantsOf;
    grants := GrantsNotOf(before, user);
    grants := AddGrantRows(grants, user, OnPipeline, onPipelines, before, users, pipelines, models, providers);
    grants := AddGrantRows(grants, user, OnModel, onModels, before, users, pipelines, models, providers);
    grants := AddGrantRows(grants, user, OnProvider, onProviders, before, users, pipelines, models, providers);
  }

  class Database {
    var providers: map<Id, Provider>
    var models: map<Id, Model>
    var pipelines: map<Id, Pipeline>
    var members: map<Id, Member>
    var users: map<Id, User>
    var grants: map<Id, Grant>
    var keys: map<Id, Id>
    var sessions: map<Id, Id>

    /** What SQLite enforces after every statement. */
    ghost predicate ForeignKeys()
      reads this
    {
      && ModelsRefer(models, providers.Keys)
      && JudgesRefer(pipelines, models.Keys)
      && MembersRefer(members, pipelines.Keys, models.Keys)
      && GrantsOwned(grants, users.Keys)
      && Owned(keys, users.Keys)
      && Owned(sessions, users.Keys)
    }

    ghost predicate Unique()
      reads this
    {
      UniqueGrants(grants) && UniquePipelineNames(pipelines) && UniqueProviders(providers) && UniqueUsernames(users)
    }

    /** What holds between requests. */
    ghost predicate Valid()
      reads this
    {
      ForeignKeys() && Unique() && GrantsRefer(grants, pipelines.Keys, models.Keys, providers.Keys)
    }

    constructor ()
      ensures Valid()
    {
      providers, models, pipelines, members, users, grants, keys, sessions := map[], map[], map[], map[], map[], map[], map[], map[];
    }

    // -- Statements: each one needs that it breaks no foreign key ------------------------------

    method DeleteMembers(pipelineIds: set<Id>, modelIds: set<Id>)
      requires ForeignKeys()
      modifies `members
      ensures ForeignKeys() && members == MembersWithout(old(members), pipelineIds, modelIds)
    {
      members := MembersWithout(members, pipelineIds, modelIds);
    }

    /** Member rows go with their pipeline: the one foreign key with ON DELETE CASCADE. */
    method DeletePipelines(ids: set<Id>)
      requires ForeignKeys()
      modifies `pipelines, `members
      ensures ForeignKeys() && pipelines == old(pipelines) - ids && members == MembersWithout(old(members), ids, {})
    {
      members := MembersWithout(members, ids, {});
      pipelines := pipelines - ids;
    }

    method DeleteModels(ids: set<Id>)
      requires ForeignKeys()
      requires NoMemberIn(members, ids) && NoJudgeIn(pipelines, ids)
      modifies `models
      ensures ForeignKeys() && models == old(models) - ids
    {
      models := models - ids;
    }

    method DeleteProviderRow(id: Id)
      requires ForeignKeys()
      requires forall m :: m in models ==> models[m].provider != id
      modifies `providers
      ensures ForeignKeys() && providers == old(providers) - {id}
    {
      providers := providers - {id};
    }

    method DeleteGrants(kind: Kind, targets: set<Id>)
      requires ForeignKeys()
      modifies `grants
      ensures ForeignKeys() && grants == GrantsWithout(old(grants), kind, targets)
    {
      grants := GrantsWithout(grants, kind, targets);
    }

    method DeleteUserRow(id: Id)
      requires ForeignKeys()
      requires forall g :: g in grants ==> grants[g].user != id
      requires forall k :: k in keys ==> keys[k] != id
      requires forall s :: s in sessions ==> sessions[s] != id
      modifies `users
      ensures ForeignKeys() && users == old(users) - {id}
    {
      users := users - {id};
    }

    // -- Models and providers --------------------------------------------------------------------

    /** Members first, then the pipelines, then the grants on them. */
    method DeleteBroken(broken: set<Id>)
      requires ForeignKeys()
      modifies `pipelines, `members, `grants
      ensures ForeignKeys() && pipelines == old(pipelines) - broken
      ensures members == MembersWithout(old(members), broken, {})
      ensures grants == GrantsWithout(old(grants), OnPipeline, broken)
    {
      MembersTwice(members, broken);
      GrantsWithoutNone(grants, OnPipeline);
      hide MembersWithout, GrantsWithout, ModelsRefer, JudgesRefer, MembersRefer, GrantsOwned, Owned;
      if broken != {} {
        DeleteMembers(broken, {});
        DeletePipelines(broken);
        DeleteGrants(OnPipeline, broken);
      }
    }

    /** `delete_models_cascade`: exactly the broken pipelines go with the models. */
    method DeleteModelsCascade(modelIds: set<Id>) returns (broken: set<Id>)
      requires Valid()
      modifies `models, `pipelines, `members, `grants
      ensures Valid()
      ensures broken == Broken(old(pipelines), old(members), modelIds)
      ensures models == old(models) - modelIds && pipelines == old(pipelines) - broken
      ensures members == MembersWithout(old(members), broken, modelIds)
      ensures grants == GrantsWithout(GrantsWithout(old(grants), OnPipeline, broken), OnModel, modelIds)
    {
      NoneBroken(pipelines, members, grants, models);
      BrokenIsComputed(pipelines, members, modelIds);
      hide MembersWithout, GrantsWithout, Broken, UniqueGrants, UniquePipelineNames, UniqueProviders, UniqueUsernames;
      hide ModelsRefer, JudgesRefer, MembersRefer, GrantsOwned, Owned, GrantsRefer;
      hide Using, Staffed, JudgedBy, NoMemberIn, NoJudgeIn;
      if modelIds == {} {
        return {};
      }
      var affected := Using(members, modelIds);
      DeleteMembers({}, modelIds);
      var judgeDead := JudgedBy(pipelines, modelIds);
      var stillHasMembers := Staffed(members);
      broken := (affected - stillHasMembers) + judgeDead;
      DeleteBroken(broken);
      DeleteGrants(OnModel, modelIds);
      MembersComposed(old(members), broken, modelIds);
      CascadeKeeps(old(pipelines), old(members), old(grants), broken, modelIds, old(models.Keys), providers.Keys);
      DeleteModels(modelIds);
      KeysWithout(old(models), modelIds);
      KeysWithout(old(pipelines), broken);
    }

    method DeleteProvider(id: Id) returns (r: Reply<set<Id>>)
      requires Valid()
      modifies `models, `pipelines, `members, `grants, `providers
      ensures Valid()
      ensures r.Ok? <==> id in old(providers)
      ensures r.Error? ==> r.status == 404 && unchanged(this)
      ensures r.Ok? ==> providers == old(providers) - {id} && models == old(models) - ModelsOf(old(models), id)
      ensures r.Ok? ==> r.value == Broken(old(pipelines), old(members), ModelsOf(old(models), id))
      ensures r.Ok? ==> pipelines == old(pipelines) - r.value
      ensures r.Ok? ==> members == MembersWithout(old(members), r.value, ModelsOf(old(models), id))
      ensures r.Ok? ==> grants == GrantsWithout(
        GrantsWithout(GrantsWithout(old(grants), OnPipeline, r.value), OnModel, ModelsOf(old(models), id)), OnProvider, {id})
    {
      if id !in providers {
        return Error(404);
      }
      hide MembersWithout, GrantsWithout, Broken, UniqueGrants, UniquePipelineNames, UniqueUsernames;
      hide JudgesRefer, MembersRefer, GrantsOwned, Owned, GrantsRefer;
      var modelIds := ModelsOf(models, id);
      var broken := DeleteModelsCascade(modelIds);
      GrantsShrink(grants, OnProvider, {id}, users.Keys, pipelines.Keys, models.Keys, providers.Keys);
      DeleteGrants(OnProvider, {id});
      DeleteProviderRow(id);
      assert providers.Keys == old(providers.Keys) - {id};
      return Ok(broken);
    }

    method DeleteModel(id: Id) returns (r: Reply<set<Id>>)
      requires Valid()
      modifies `models, `pipelines, `members, `grants
      ensures Valid()
      ensures r == if id in old(models) then Ok(Broken(old(pipelines), old(members), {id})) else Error(404)
      ensures r.Error? ==> unchanged(this)
      ensures r.Ok? ==> models == old(models) - {id} && pipelines == old(pipelines) - r.value
      ensures r.Ok? ==> members == MembersWithout(old(members), r.value, {id})
      ensures r.Ok? ==> grants == GrantsWithout(GrantsWithout(old(grants), OnPipeline, r.value), OnModel, {id})
    {
      if id !in models {
        return Error(404);
      }
      hide MembersWithout, GrantsWithout, Broken;
      var broken := DeleteModelsCascade({id});
      return Ok(broken);
    }

    /** A new provider; `lowered` is the name in lower case. Its slug is free, and its number carries no
        grant of a provider that had the number before. */
    method CreateProvider(name: string, lowered: string) returns (r: Reply<Id>)
      requires Valid()
      modifies `providers
      ensures Valid()
      ensures r.Error? <==> ProviderNamed(old(providers), name)
      ensures r.Error? ==> r.status == 500 && unchanged(this)
      ensures r.Ok? ==> r.value !in old(providers) && r.value in providers && providers[r.value].name == name
      ensures r.Ok? ==> providers == old(providers)[r.value := providers[r.value]]
      ensures r.Ok? ==> Slug.Derived(lowered, SlugsOf(old(providers)) + {""}, "provider-" + Decimal(r.value), providers[r.value].slug)
      ensures r.Ok? ==> NoGrantOn(grants, OnProvider, r.value)
    {
      hide Slug.Derived, Decimal, UniqueProviders, GrantsRefer, GrantsOwned, Owned, UniqueGrants, UniquePipelineNames;
      hide UniqueUsernames, JudgesRefer, MembersRefer, NoGrantOn, SlugsOf, ModelsRefer, ProviderNamed;
      if ProviderNamed(providers, name) {
        return Error(500);
      }
      var id, row := ProviderRow(providers, name, lowered);
      ProviderAdded(providers, models, id, name, row.slug);
      NewTarget(grants, OnProvider, id, pipelines.Keys, models.Keys, providers.Keys);
      providers := providers[id := row];
      return Ok(id);
    }

    method CreateModel(provider: Id, upstream: string, enabled: bool) returns (r: Reply<Id>)
      requires Valid()
      modifies `models
      ensures Valid()
      ensures r.Ok? <==> provider in providers
      ensures r.Error? ==> r.status == 422 && unchanged(this)
      ensures r.Ok? ==> r.value !in old(models) && models == old(models)[r.value := Model(provider, upstream, enabled, false)]
      ensures r.Ok? ==> NoGrantOn(grants, OnModel, r.value)
    {
      if provider !in providers {
        return Error(422);
      }
      hide GrantsRefer, GrantsOwned, Owned, UniqueGrants, UniquePipelineNames, UniqueUsernames, UniqueProviders, NoGrantOn;
      hide ModelsRefer, JudgesRefer, MembersRefer;
      var id := FreshId(models.Keys);
      NewTarget(grants, OnModel, id, pipelines.Keys, models.Keys, providers.Keys);
      ModelPut(models, id, Model(provider, upstream, enabled, false), providers.Keys, pipelines, members);
      models := models[id := Model(provider, upstream, enabled, false)];
      return Ok(id);
    }

    /** Only the name matters here: the slug is never changed. */
    method UpdateProvider(id: Id, name: Option<string>) returns (r: Reply<()>)
      requires Valid()
      modifies `providers
      ensures Valid()
      ensures r.Error? ==> unchanged(this)
      ensures id !in old(providers) ==> r == Error(404)
      ensures id in old(providers) ==>
        (r == if name.Some? && name.value != old(providers)[id].name && ProviderNamed(old(providers), name.value) then Error(500) else Ok(()))
      ensures r.Ok? ==>
        && id in old(providers)
        && providers == old(providers)[id := old(providers)[id].(name := if name.Some? then name.value else old(providers)[id].name)]
    {
      if id !in providers {
        return Error(404);
      }
      if name.Some? && name.value != providers[id].name && ProviderNamed(providers, name.value) {
        return Error(500);
      }
      hide GrantsRefer, GrantsOwned, Owned, UniqueGrants, UniquePipelineNames, UniqueUsernames, JudgesRefer, MembersRefer;
      hide UniqueProviders, ProviderNamed, ModelsRefer;
      var row := providers[id].(name := if name.Some? then name.value else providers[id].name);
      ProviderRenamed(providers, id, row.name);
      providers := providers[id := row];
      assert providers.Keys == old(providers.Keys);
      return Ok(());
    }

    /** The provider is checked before the model is looked up. */
    method UpdateModel(id: Id, provider: Option<Id>, upstream: Option<string>, enabled: Option<bool>) returns (r: Reply<()>)
      requires Valid()
      modifies `models
      ensures Valid()
      ensures r.Error? ==> unchanged(this)
      ensures r == if provider.Some? && provider.value !in providers then Error(422)
        else if id !in old(models) then Error(404)
        else Ok(())
      ensures r.Ok? ==> models == old(models)[id := ModelPatched(old(models)[id], provider, upstream, enabled)]
    {
      hide GrantsRefer, GrantsOwned, Owned, UniqueGrants, UniquePipelineNames, UniqueUsernames, UniqueProviders;
      hide JudgesRefer, MembersRefer, ModelsRefer;
      if provider.Some? && provider.value !in providers {
        return Error(422);
      }
      if id !in models {
        return Error(404);
      }
      var row := ModelPatched(models[id], provider, upstream, enabled);
      ModelChanged(models, id, row, providers.Keys);
      models := models[id := row];
      return Ok(());
    }

    // -- Pipelines -------------------------------------------------------------------------------

    /** `_replace_members`: the old rows are deleted, the new ones are added and flushed together. */
    method ReplaceMembers(p: Id, modelIds: seq<Id>) returns (rows: seq<Id>)
      requires Valid() && p in pipelines && AllIn(modelIds, models.Keys)
      modifies `members
      ensures Valid()
      ensures Replaced(old(members), members, p, modelIds, rows)
    {
      ReplacedStart(members, p);
      hide Replaced, MembersWithout, MembersRefer, ModelsRefer, JudgesRefer, GrantsOwned, Owned, GrantsRefer;
      hide UniqueGrants, UniquePipelineNames, UniqueProviders, UniqueUsernames, AllIn;
      DeleteMembers({p}, {});
      var after, added := MemberRows(old(members), members, p, modelIds, pipelines.Keys, models.Keys);
      members := after;
      return added;
    }

    method CreatePipeline(name: string, judge: Id, modelIds: seq<Id>, strategyKnown: bool, paramsValid: bool)
      returns (r: Reply<Id>, ghost rows: seq<Id>)
      requires Valid()
      modifies `pipelines, `members
      ensures Valid()
      ensures r.Error? ==> unchanged(this)
      ensures var refs := strategyKnown && judge in models && AllIn(modelIds, models.Keys);
        && (r.Ok? <==> refs && !NameTaken(old(pipelines), name) && paramsValid)
        && (r.Error? ==> r.status == if refs && NameTaken(old(pipelines), name) then 409 else 422)
      ensures r.Ok? ==> r.value !in old(pipelines) && pipelines == old(pipelines)[r.value := Pipeline(name, judge)]
      ensures r.Ok? ==> Replaced(old(members), members, r.value, modelIds, rows)
      ensures r.Ok? ==> NoGrantOn(grants, OnPipeline, r.value)
    {
      hide Replaced, GrantsRefer, GrantsOwned, Owned, UniqueGrants;
      hide UniqueUsernames, UniqueProviders, NoGrantOn, ModelsRefer, AllIn;
      rows := [];
      if !strategyKnown || judge !in models || !AllIn(modelIds, models.Keys) {
        return Error(422), [];
      }
      if NameTaken(pipelines, name) {
        return Error(409), [];
      }
      if !paramsValid {
        return Error(422), [];
      }
      var id := FreshId(pipelines.Keys);
      NewTarget(grants, OnPipeline, id, pipelines.Keys, models.Keys, providers.Keys);
      pipelines := pipelines[id := Pipeline(name, judge)];
      assert pipelines.Keys == old(pipelines.Keys) + {id};
      var created := ReplaceMembers(id, modelIds);
      return Ok(id), created;
    }

    /** A partial update. `nulls`: the body sets some column to null explicitly, which the database refuses. */
    method UpdatePipeline(id: Id, name: Option<string>, judge: Option<Id>, modelIds: Option<seq<Id>>,
                          strategyKnown: bool, paramsValid: bool, nulls: bool)
      returns (r: Reply<()>, ghost rows: seq<Id>)
      requires Valid()
      modifies `pipelines, `members
      ensures Valid()
      ensures r.Error? ==> unchanged(this)
      ensures id !in old(pipelines) ==> r == Error(404)
      ensures id in old(pipelines) ==>
        var refs := strategyKnown && (judge.Some? ==> judge.value in models) && (modelIds.Some? ==> AllIn(modelIds.value, models.Keys));
        var clash := name.Some? && name.value != old(pipelines)[id].name && NameTaken(old(pipelines), name.value);
        && (r.Ok? <==> refs && !clash && paramsValid && !nulls)
        && (r.Error? ==> r.status == if !refs then 422 else if clash then 409 else if !paramsValid then 422 else 409)
      ensures r.Ok? ==> id in old(pipelines) && pipelines == old(pipelines)[id := Patched(old(pipelines)[id], name, judge)]
      ensures r.Ok? ==> if modelIds.Some? then Replaced(old(members), members, id, modelIds.value, rows) else members == old(members)
    {
      hide Replaced, GrantsRefer, GrantsOwned, Owned, UniqueGrants;
      hide UniqueUsernames, UniqueProviders, ModelsRefer, MembersRefer, AllIn;
      hide UniquePipelineNames, JudgesRefer, Patched;
      rows := [];
      if id !in pipelines {
        return Error(404), [];
      }
      if !strategyKnown || (judge.Some? && judge.value !in models) {
        return Error(422), [];
      }
      if modelIds.Some? && !AllIn(modelIds.value, models.Keys) {
        return Error(422), [];
      }
      if name.Some? && name.value != pipelines[id].name && NameTaken(pipelines, name.value) {
        return Error(409), [];
      }
      if !paramsValid {
        return Error(422), [];
      }
      if nulls {
        return Error(409), [];
      }
      PipelinePatched(pipelines, id, name, judge, models.Keys);
      pipelines := pipelines[id := Patched(pipelines[id], name, judge)];
      assert pipelines.Keys == old(pipelines.Keys);
      if modelIds.None? {
        return Ok(()), [];
      }
      var created := ReplaceMembers(id, modelIds.value);
      return Ok(()), created;
    }

    method DeletePipeline(id: Id) returns (r: Reply<()>)
      requires Valid()
      modifies `pipelines, `members, `grants
      ensures Valid()
      ensures r == if id in old(pipelines) then Ok(()) else Error(404)
      ensures r.Error? ==> unchanged(this)
      ensures r.Ok? ==> pipelines == old(pipelines) - {id} && members == MembersWithout(old(members), {id}, {})
      ensures r.Ok? ==> grants == GrantsWithout(old(grants), OnPipeline, {id})
    {
      if id !in pipelines {
        return Error(404);
      }
      hide MembersWithout, GrantsWithout, MembersRefer, ModelsRefer, JudgesRefer, GrantsOwned, Owned, GrantsRefer;
      hide UniqueGrants, UniqueProviders, UniqueUsernames;
      GrantsShrink(grants, OnPipeline, {id}, users.Keys, pipelines.Keys, models.Keys, providers.Keys);
      DeletePipelines({id});
      DeleteGrants(OnPipeline, {id});
      assert pipelines.Keys == old(pipelines.Keys) - {id};
      return Ok(());
    }

    // -- Users and grants ------------------------------------------------------------------------

    /** Overwrites the grants of a user: afterwards they are exactly the requested ones, each in one row. */
    method PutGrants(user: Id, onPipelines: seq<Id>, onModels: seq<Id>, onProviders: seq<Id>) returns (r: Reply<()>)
      requires Valid()
      modifies `grants
      ensures Valid()
      ensures r.Error? ==> unchanged(this)
      ensures r == if user !in users then Error(404)
        else if AllIn(onPipelines, pipelines.Keys) && AllIn(onModels, models.Keys) && AllIn(onProviders, providers.Keys) then Ok(())
        else Error(422)
      ensures r.Ok? ==> OthersKept(old(grants), grants, user)
      ensures r.Ok? ==> GrantsOf(grants, user) == Requested(set t | t in onPipelines, set t | t in onModels, set t | t in onProviders)
    {
      hide ModelsRefer, JudgesRefer, MembersRefer, GrantsOwned, Owned, GrantsRefer, UniqueGrants, UniquePipelineNames;
      hide UniqueProviders, UniqueUsernames, GrantsOf, OthersKept, GrantsNotOf, Requested;
      if user !in users {
        return Error(404);
      }
      if !AllIn(onPipelines, pipelines.Keys) || !AllIn(onModels, models.Keys) || !AllIn(onProviders, providers.Keys) {
        return Error(422);
      }
      var p, m, q := set t | t in onPipelines, set t | t in onModels, set t | t in onProviders;
      assert p <= pipelines.Keys && m <= models.Keys && q <= providers.Keys;
      var replaced := GrantRowsFor(grants, user, p, m, q, users.Keys, pipelines.Keys, models.Keys, providers.Keys);
      grants := replaced;
      return Ok(());
    }

    /** The guard against locking everybody out. */
    method CanDemote(id: Id) returns (ok: bool)
      requires id in users && Valid()
      ensures ok <==> CanGo(users, id)
    {
      if users[id].username == "admin" {
        return false;
      }
      var others := set u | u in users && users[u].admin && users[u].enabled && u != id;
      assert others != {} <==> exists u :: u != id && EnabledAdmin(users, u) by {
        assert forall u :: u in others <==> u != id && EnabledAdmin(users, u);
        if others != {} {
          var u :| u in others;
        }
      }
      return !(users[id].admin && |others| == 0);
    }

    /** Statement order matters: the user row goes last. */
    method DeleteUserCascade(id: Id)
      requires ForeignKeys()
      modifies `users, `grants, `keys, `sessions
      ensures ForeignKeys()
      ensures users == old(users) - {id} && grants == GrantsNotOf(old(grants), id)
      ensures keys == NotOwnedBy(old(keys), id) && sessions == NotOwnedBy(old(sessions), id)
    {
      hide ModelsRefer, JudgesRefer, MembersRefer;
      keys := NotOwnedBy(keys, id);
      grants := GrantsNotOf(grants, id);
      sessions := NotOwnedBy(sessions, id);
      DeleteUserRow(id);
    }

    method DeleteUser(id: Id) returns (r: Reply<()>)
      requires Valid()
      modifies `users, `grants, `keys, `sessions
      ensures Valid() && (HasAdmin(old(users)) ==> HasAdmin(users))
      ensures r.Error? ==> unchanged(this)
      ensures r == if id !in old(users) then Error(404) else if CanGo(old(users), id) then Ok(()) else Error(409)
      ensures r.Ok? ==> users == old(users) - {id} && grants == GrantsNotOf(old(grants), id)
      ensures r.Ok? ==> keys == NotOwnedBy(old(keys), id) && sessions == NotOwnedBy(old(sessions), id)
    {
      if id !in users {
        return Error(404);
      }
      var ok := CanDemote(id);
      if !ok {
        return Error(409);
      }
      hide ModelsRefer, JudgesRefer, MembersRefer, GrantsOwned, Owned, GrantsRefer, UniqueGrants, UniquePipelineNames;
      hide UniqueProviders, GrantsNotOf, NotOwnedBy, CanGo, HasAdmin;
      AdminLeft(users, id);
      UserGrantsGone(grants, id, users.Keys, pipelines.Keys, models.Keys, providers.Keys);
      DeleteUserCascade(id);
      return Ok(());
    }

    /** A key belongs to the user it was created for. */
    method CreateKey(user: Id) returns (r: Reply<Id>)
      requires Valid()
      modifies `keys
      ensures Valid()
      ensures r.Ok? <==> user in users
      ensures r.Error? ==> r.status == 404 && unchanged(this)
      ensures r.Ok? ==> r.value > 0 && r.value !in old(keys) && keys == old(keys)[r.value := user]
    {
      if user !in users {
        return Error(404);
      }
      hide GrantsRefer, GrantsOwned, UniqueGrants, UniquePipelineNames;
      hide UniqueUsernames, UniqueProviders, JudgesRefer, MembersRefer;
      var id := FreshId(keys.Keys);
      keys := keys[id := user];
      return Ok(id);
    }

    /** Key number 0 stands for the key kept in the settings, which cannot be deleted here. */
    method DeleteKey(user: Id, key: Id) returns (r: Reply<()>)
      requires Valid()
      modifies `keys
      ensures Valid()
      ensures r.Error? ==> unchanged(this)
      ensures r == if user !in users then Error(404)
        else if key == 0 then Error(409)
        else if key in old(keys) && old(keys)[key] == user then Ok(())
        else Error(404)
      ensures r.Ok? ==> keys == old(keys) - {key}
    {
      hide ModelsRefer, JudgesRefer, MembersRefer, GrantsOwned, Owned, GrantsRefer, UniqueGrants, UniquePipelineNames;
      hide UniqueProviders, UniqueUsernames;
      if user !in users {
        return Error(404);
      }
      if key == 0 {
        return Error(409);
      }
      if key !in keys || keys[key] != user {
        return Error(404);
      }
      KeyGone(keys, key, users.Keys);
      keys := keys - {key};
      return Ok(());
    }

    method CreateUser(username: string, admin: bool, hasPassword: bool) returns (r: Reply<Id>)
      requires Valid()
      modifies `users
      ensures Valid() && (HasAdmin(old(users)) ==> HasAdmin(users))
      ensures r.Error? ==> unchanged(this)
      ensures r.Ok? <==> (admin ==> hasPassword) && !UserNamed(old(users), username)
      ensures r.Error? ==> r.status == if admin && !hasPassword then 422 else 409
      ensures r.Ok? ==> r.value !in old(users) && users == old(users)[r.value := User(username, admin, true)]
    {
      if admin && !hasPassword {
        return Error(422);
      }
      if UserNamed(users, username) {
        return Error(409);
      }
      var id := FreshId(users.Keys);
      assert forall u :: EnabledAdmin(users, u) ==> u != id && EnabledAdmin(users[id := User(username, admin, true)], u);
      users := users[id := User(username, admin, true)];
      return Ok(id);
    }

    /** Changes of role and of the enabled flag; `passwordOk`: the password rules of the request are met. */
    method UpdateUser(id: Id, admin: Option<bool>, enabled: Option<bool>, passwordOk: bool) returns (r: Reply<()>)
      requires Valid()
      modifies `users
      ensures Valid() && (HasAdmin(old(users)) ==> HasAdmin(users))
      ensures r.Error? ==> unchanged(this)
      ensures r.Ok? ==> id in old(users) && users == old(users)[id := old(users)[id].(
          admin := if admin.Some? then admin.value else old(users)[id].admin,
          enabled := if enabled.Some? then enabled.value else old(users)[id].enabled)]
      ensures r == if id !in old(users) then Error(404)
        else if (enabled == Some(false) || admin == Some(false)) && !CanGo(old(users), id) then Error(409)
        else if passwordOk then Ok(())
        else Error(422)
    {
      hide ModelsRefer, JudgesRefer, MembersRefer, GrantsOwned, Owned, GrantsRefer, UniqueGrants, UniquePipelineNames;
      hide UniqueProviders, UniqueUsernames, HasAdmin, CanGo;
      if id !in users {
        return Error(404);
      }
      if enabled == Some(false) || admin == Some(false) {
        var ok := CanDemote(id);
        if !ok {
          return Error(409);
        }
      }
      if !passwordOk {
        return Error(422);
      }
      var row := users[id];
      if admin.Some? {
        row := row.(admin := admin.value);
      }
      if enabled.Some? {
        row := row.(enabled := enabled.value);
      }
      UserChanged(users, id, row);
      users := users[id := row];
      return Ok(());
    }
  }

  /** The queries of the cascade find exactly the broken pipelines. */
  lemma {:induction false} BrokenIsComputed(pipelines: map<Id, Pipeline>, members: map<Id, Member>, ids: set<Id>)
    requires forall m :: m in members ==> members[m].pipeline in pipelines
    ensures (Using(members, ids) - Staffed(MembersWithout(members, {}, ids))) + JudgedBy(pipelines, ids) == Broken(pipelines, members, ids)
  {
    var left := MembersWithout(members, {}, ids);
    var affected, still := Using(members, ids), Staffed(left);
    forall p ensures p in affected - still <==> p in pipelines && Emptied(members, p, ids) {
      if p in pipelines && Emptied(members, p, ids) {
        var m :| m in members && members[m].pipeline == p;
        assert members[m].pipeline in affected;
      }
      if p in affected - still {
        forall m | m in members && members[m].pipeline == p ensures members[m].model in ids {
          assert m in left ==> p in still;
        }
      }
    }
  }

  lemma {:induction false} NoneBroken(pipelines: map<Id, Pipeline>, members: map<Id, Member>, grants: map<Id, Grant>,
        models: map<Id, Model>)
    ensures Broken(pipelines, members, {}) == {}
    ensures members == MembersWithout(members, {}, {}) && models - {} == models && pipelines - {} == pipelines
    ensures grants == GrantsWithout(GrantsWithout(grants, OnPipeline, {}), OnModel, {})
  {
    assert forall p :: !Emptied(members, p, {});
  }

  lemma {:induction false} KeysWithout<T>(rows: map<Id, T>, ids: set<Id>)
    ensures (rows - ids).Keys == rows.Keys - ids
  {
  }

  lemma {:induction false} MembersComposed(members: map<Id, Member>, broken: set<Id>, ids: set<Id>)
    ensures MembersWithout(MembersWithout(members, {}, ids), broken, {}) == MembersWithout(members, broken, ids)
  {
  }

  lemma {:induction false} MembersTwice(members: map<Id, Member>, broken: set<Id>)
    ensures MembersWithout(MembersWithout(members, broken, {}), broken, {}) == MembersWithout(members, broken, {})
    ensures MembersWithout(members, {}, {}) == members
  {
  }

  lemma {:induction false} GrantsWithoutNone(grants: map<Id, Grant>, kind: Kind)
    ensures GrantsWithout(grants, kind, {}) == grants
  {
  }

  /** Deleting the grants of deleted targets keeps the grants in order. */
  lemma {:induction false} GrantsShrink(grants: map<Id, Grant>, kind: Kind, targets: set<Id>, users: set<Id>,
                     pipelines: set<Id>, models: set<Id>, providers: set<Id>)
    requires GrantsSound(grants, users, pipelines, models, providers)
    ensures GrantsSound(GrantsWithout(grants, kind, targets), users,
      if kind.OnPipeline? then pipelines - targets else pipelines,
      if kind.OnModel? then models - targets else models,
      if kind.OnProvider? then providers - targets else providers)
  {
  }

  /** After the cascade's deletions no reference to a deleted row is left. */
  lemma {:induction false} CascadeKeeps(pipelines: map<Id, Pipeline>, members: map<Id, Member>,
        grants: map<Id, Grant>, broken: set<Id>, ids: set<Id>,
                     models: set<Id>, providers: set<Id>)
    requires broken == Broken(pipelines, members, ids)
    requires UniquePipelineNames(pipelines) && UniqueGrants(grants) && GrantsRefer(grants, pipelines.Keys, models, providers)
    ensures NoJudgeIn(pipelines - broken, ids) && NoMemberIn(MembersWithout(members, broken, ids), ids)
    ensures UniquePipelineNames(pipelines - broken)
    ensures var left := GrantsWithout(GrantsWithout(grants, OnPipeline, broken), OnModel, ids);
      UniqueGrants(left) && GrantsRefer(left, pipelines.Keys - broken, models - ids, providers)
  {
    hide Emptied;
    var owners := set g | g in grants :: grants[g].user;
    GrantsShrink(grants, OnPipeline, broken, owners, pipelines.Keys, models, providers);
    GrantsShrink(GrantsWithout(grants, OnPipeline, broken), OnModel, ids, owners, pipelines.Keys - broken, models, providers);
  }

  lemma {:induction false} SlugsGrow(providers: map<Id, Provider>, id: Id, row: Provider)
    requires id !in providers
    ensures SlugsOf(providers[id := row]) == SlugsOf(providers) + {row.slug}
  {
    var more := providers[id := row];
    assert more[id].slug in SlugsOf(more);
    forall p | p in providers ensures providers[p].slug in SlugsOf(more) {
      assert more[p] == providers[p];
    }
  }

  lemma {:induction false} ProviderAdded(providers: map<Id, Provider>, models: map<Id, Model>, id: Id, name: string, slug: string)
    requires UniqueProviders(providers) && ModelsRefer(models, providers.Keys)
    requires id !in providers && slug !in SlugsOf(providers) && slug != "" && !ProviderNamed(providers, name)
    ensures UniqueProviders(providers[id := Provider(name, slug)])
    ensures ModelsRefer(models, providers[id := Provider(name, slug)].Keys)
    ensures providers[id := Provider(name, slug)].Keys == providers.Keys + {id}
  {
    assert forall p :: p in providers ==> providers[p].slug in SlugsOf(providers);
  }

  lemma {:induction false} ProviderRenamed(providers: map<Id, Provider>, id: Id, name: string)
    requires UniqueProviders(providers) && id in providers
    requires name == providers[id].name || !ProviderNamed(providers, name)
    ensures UniqueProviders(providers[id := providers[id].(name := name)])
  {
  }

  /** A new model row breaks no reference. */
  lemma {:induction false} ModelPut(models: map<Id, Model>, id: Id, row: Model, providers: set<Id>, pipelines: map<Id, Pipeline>,
        members: map<Id, Member>)
    requires row.provider in providers && ModelsRefer(models, providers)
    requires JudgesRefer(pipelines, models.Keys) && MembersRefer(members, pipelines.Keys, models.Keys)
    ensures var more := models[id := row];
      && ModelsRefer(more, providers) && JudgesRefer(pipelines, more.Keys) && MembersRefer(members, pipelines.Keys, more.Keys)
      && more.Keys == models.Keys + {id}
  {
  }

  lemma {:induction false} ModelChanged(models: map<Id, Model>, id: Id, row: Model, providers: set<Id>)
    requires id in models && ModelsRefer(models, providers)
    requires row.provider in providers || row.provider == models[id].provider
    ensures ModelsRefer(models[id := row], providers) && models[id := row].Keys == models.Keys
  {
  }

  lemma {:induction false} KeyGone(keys: map<Id, Id>, key: Id, users: set<Id>)
    requires Owned(keys, users)
    ensures Owned(keys - {key}, users)
  {
  }

  /** A changed user row takes nobody's name, and an enabled administrator is left when there was one. */
  lemma {:induction false} UserChanged(users: map<Id, User>, id: Id, row: User)
    requires id in users && row.username == users[id].username && UniqueUsernames(users)
    requires CanGo(users, id) || ((users[id].admin ==> row.admin) && (users[id].enabled ==> row.enabled))
    ensures users[id := row].Keys == users.Keys && UniqueUsernames(users[id := row])
    ensures HasAdmin(users) ==> HasAdmin(users[id := row])
  {
    if HasAdmin(users) {
      var u :| EnabledAdmin(users, u);
      if u == id && !(row.admin && row.enabled) {
        var other :| other != id && EnabledAdmin(users, other);
        assert EnabledAdmin(users[id := row], other);
      } else {
        assert EnabledAdmin(users[id := row], u);
      }
    }
  }

  /** Grants stay in order when a target is added, and none is waiting for it. */
  lemma {:induction false} NewTarget(grants: map<Id, Grant>, kind: Kind, id: Id, pipelines: set<Id>, models: set<Id>,
        providers: set<Id>)
    requires GrantsRefer(grants, pipelines, models, providers) && id !in Targets(kind, pipelines, models, providers)
    ensures NoGrantOn(grants, kind, id)
    ensures kind.OnPipeline? ==> GrantsRefer(grants, pipelines + {id}, models, providers)
    ensures kind.OnModel? ==> GrantsRefer(grants, pipelines, models + {id}, providers)
    ensures kind.OnProvider? ==> GrantsRefer(grants, pipelines, models, providers + {id})
  {
  }

  lemma {:induction false} ReplacedStart(members: map<Id, Member>, p: Id)
    ensures Replaced(members, MembersWithout(members, {p}, {}), p, [], [])
  {
  }

  lemma {:induction false} ReplacedStep(before: map<Id, Member>, after: map<Id, Member>, p: Id, list: seq<Id>,
        rows: seq<Id>, row: Id, model: Id,
                     pipelines: set<Id>, models: set<Id>)
    requires Replaced(before, after, p, list, rows) && row !in after
    requires MembersRefer(after, pipelines, models) && p in pipelines && model in models
    ensures Replaced(before, after[row := Member(p, model, |rows|)], p, list + [model], rows + [row])
    ensures MembersRefer(after[row := Member(p, model, |rows|)], pipelines, models)
  {
    assert forall i :: 0 <= i < |rows| ==> rows[i] in rows && rows[i] in after;
    assert forall m :: m in rows + [row] <==> m in rows || m == row;
  }

  lemma {:induction false} PipelinePatched(pipelines: map<Id, Pipeline>, id: Id, name: Option<string>,
        judge: Option<Id>, models: set<Id>)
    requires id in pipelines && UniquePipelineNames(pipelines) && JudgesRefer(pipelines, models)
    requires name.Some? && name.value != pipelines[id].name ==> !NameTaken(pipelines, name.value)
    requires judge.Some? ==> judge.value in models
    ensures UniquePipelineNames(pipelines[id := Patched(pipelines[id], name, judge)])
    ensures JudgesRefer(pipelines[id := Patched(pipelines[id], name, judge)], models)
  {
  }

  lemma {:induction false} UserGrantsGone(grants: map<Id, Grant>, user: Id, users: set<Id>, pipelines: set<Id>,
        models: set<Id>, providers: set<Id>)
    requires GrantsSound(grants, users, pipelines, models, providers)
    ensures var left := GrantsNotOf(grants, user);
      && GrantsOf(left, user) == {} && OthersKept(grants, left, user)
      && GrantsSound(left, users, pipelines, models, providers)
  {
  }

  lemma {:induction false} GrantAdded(before: map<Id, Grant>, grants: map<Id, Grant>, id: Id, user: Id, kind: Kind, target: Id,
                   users: set<Id>, pipelines: set<Id>, models: set<Id>, providers: set<Id>)
    requires GrantsSound(grants, users, pipelines, models, providers) && OthersKept(before, grants, user)
    requires id !in grants && user in users && target in Targets(kind, pipelines, models, providers)
    requires (kind, target) !in GrantsOf(grants, user)
    ensures var more := grants[id := Grant(user, kind, target)];
      && GrantsOf(more, user) == GrantsOf(grants, user) + {(kind, target)}
      && OthersKept(before, more, user)
      && GrantsSound(more, users, pipelines, models, providers)
  {
    hide GrantsSound, OthersKept, GrantsOf;
    GrantListed(grants, id, user, kind, target);
    GrantSound(grants, id, user, kind, target, users, pipelines, models, providers);
    GrantKeepsOthers(before, grants, id, user, kind, target);
  }

  lemma {:induction false} GrantListed(grants: map<Id, Grant>, id: Id, user: Id, kind: Kind, target: Id)
    requires id !in grants
    ensures GrantsOf(grants[id := Grant(user, kind, target)], user) == GrantsOf(grants, user) + {(kind, target)}
  {
    var more := grants[id := Grant(user, kind, target)];
    assert (more[id].kind, more[id].target) in GrantsOf(more, user);
    forall g | g in grants && grants[g].user == user ensures (grants[g].kind, grants[g].target) in GrantsOf(more, user) {
      assert more[g] == grants[g];
    }
  }

  lemma {:induction false} GrantSound(grants: map<Id, Grant>, id: Id, user: Id, kind: Kind, target: Id,
                   users: set<Id>, pipelines: set<Id>, models: set<Id>, providers: set<Id>)
    requires GrantsSound(grants, users, pipelines, models, providers)
    requires id !in grants && user in users && target in Targets(kind, pipelines, models, providers)
    requires (kind, target) !in GrantsOf(grants, user)
    ensures GrantsSound(grants[id := Grant(user, kind, target)], users, pipelines, models, providers)
  {
    hide Targets;
    assert forall g :: g in grants && grants[g].user == user ==> (grants[g].kind, grants[g].target) in GrantsOf(grants, user);
  }

  lemma {:induction false} GrantKeepsOthers(before: map<Id, Grant>, grants: map<Id, Grant>, id: Id, user: Id, kind: Kind, target: Id)
    requires id !in grants && OthersKept(before, grants, user)
    ensures OthersKept(before, grants[id := Grant(user, kind, target)], user)
  {
  }

  lemma {:induction false} AdminLeft(users: map<Id, User>, id: Id)
    requires id in users && CanGo(users, id) && UniqueUsernames(users)
    ensures HasAdmin(users) ==> HasAdmin(users - {id})
    ensures UniqueUsernames(users - {id})
  {
    if HasAdmin(users) {
      var u :| u != id && EnabledAdmin(users, u);
      assert EnabledAdmin(users - {id}, u);
    }
  }
}
