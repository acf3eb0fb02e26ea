/**
  The Okta group entity provider: one synchronisation pass that lists groups,
  optionally one query per configured group name, names each group and its
  members with the configured strategies, and hands the catalog a single
  full-replacement mutation.
 */
module OktaGroupEntityProvider {
  import opened Wrappers
  import opened OktaClient
  import opened CatalogModel

  const ProviderNamePrefix := "okta-group-"

  /** The catalog connection registered by `connect`; only its presence matters here. */
  datatype EntityProviderConnection = EntityProviderConnection

  /**
    The provider's state. The naming strategies are the functions the
    strategy factories resolved at construction; `groups` is the optional
    filter list from configuration.
   */
  datatype Provider = Provider(
    orgUrl: string,
    namingStrategy: GroupRecord -> string,
    userNamingStrategy: UserRecord -> string,
    groups: Option<seq<string>>,
    connection: Option<EntityProviderConnection>)

  datatype RunError = NotInitialized | FetchFailed(message: string)

  /** What one call of `run` does: the queries it sent, in order, and its outcome. */
  datatype RunResult = RunResult(issued: seq<QueryParameters>, outcome: Result<Mutation, RunError>)

  /** The constructor: strategies and filter list are stored, no connection yet. */
  function NewProvider(
    orgUrl: string,
    namingStrategy: GroupRecord -> string,
    userNamingStrategy: UserRecord -> string,
    groups: Option<seq<string>>): (p: Provider)
    ensures p.connection.None?
    ensures p.orgUrl == orgUrl && p.groups == groups
    ensures p.namingStrategy == namingStrategy && p.userNamingStrategy == userNamingStrategy
  {
    Provider(orgUrl, namingStrategy, userNamingStrategy, groups, None)
  }

  /** The location key of every entity this provider emits. */
  function ProviderName(p: Provider): (name: string)
    ensures |name| == |ProviderNamePrefix| + |p.orgUrl|
    ensures name[..|ProviderNamePrefix|] == ProviderNamePrefix
    ensures name[|ProviderNamePrefix|..] == p.orgUrl
  {
    ProviderNamePrefix + p.orgUrl
  }

  /**
    `group ? { q: group } : {}`: a filter name constrains the query only when
    it is truthy, so both a missing name and the empty string list every group.
   */
  function QueryFor(group: Option<string>): (query: QueryParameters)
    ensures query.Search? <==> group.Some? && |group.value| > 0
    ensures query.Search? ==> query.q == group.value
  {
    match group
    case Some(name) => if name == "" then NoParameters else Search(name)
    case None => NoParameters
  }

  /** The user naming strategy applied to every member, in delivery order. */
  function MemberNames(strategy: UserRecord -> string, users: seq<UserRecord>): (names: seq<string>)
    ensures |names| == |users|
    ensures forall i :: 0 <= i < |users| ==> names[i] == strategy(users[i])
  {
    if |users| == 0 then []
    else MemberNames(strategy, users[..|users| - 1]) + [strategy(users[|users| - 1])]
  }

  /** `{ ...defaultAnnotations }`: a copy of the defaults, and `{}` when there are none. */
  function AnnotationsCopy(defaults: Option<Annotations>): (copy: Annotations)
    ensures defaults.None? ==> copy == map[]
    ensures defaults.Some? ==> copy.Keys == defaults.value.Keys
    ensures defaults.Some? ==> forall k :: k in copy ==> copy[k] == defaults.value[k]
  {
    match defaults
    case None => map[]
    case Some(m) => map k | k in m :: m[k]
  }

  /** The entity literal built for one group once its members are named. */
  function GroupEntityOf(p: Provider, defaults: Option<Annotations>, g: GroupRecord, members: seq<string>): GroupEntity
  {
    GroupEntity(
      GroupKind,
      GroupApiVersion,
      Metadata(AnnotationsCopy(defaults), p.namingStrategy(g), g.profile.name, g.profile.description),
      GroupSpec(members, GroupSpecType, []))
  }

  function ToEntity(p: Provider, defaults: Option<Annotations>, g: GroupRecord): GroupEntity
  {
    GroupEntityOf(p, defaults, g, MemberNames(p.userNamingStrategy, g.users.items))
  }

  /** The error a failed member listing propagates. */
  function MembersFailure(g: GroupRecord): RunError
    requires g.users.failure.Some?
  {
    FetchFailed(g.users.failure.value)
  }

  /**
    The error of the first delivered group, in delivery order, whose member
    listing failed; `None` when every member listing completed.
   */
  function FirstMembersFailure(groups: seq<GroupRecord>): (e: Option<RunError>)
    ensures e.None? <==> forall i :: 0 <= i < |groups| ==> Complete(groups[i].users)
  {
    if |groups| == 0 then None
    else if groups[0].users.failure.Some? then Some(MembersFailure(groups[0]))
    else FirstMembersFailure(groups[1..])
  }

  /** Appending a group changes the first member failure only when there was none before. */
  lemma {:induction false} FirstMembersFailureSnoc(groups: seq<GroupRecord>, g: GroupRecord)
    ensures FirstMembersFailure(groups + [g]) ==
      if FirstMembersFailure(groups).Some? then FirstMembersFailure(groups)
      else if g.users.failure.Some? then Some(MembersFailure(g))
      else None
  {
    if |groups| > 0 {
      assert (groups + [g])[1..] == groups[1..] + [g];
      FirstMembersFailureSnoc(groups[1..], g);
    } else {
      assert groups + [g] == [g];
    }
  }

  /**
    The error a listing that did not drain propagates: the first failing
    member listing's error, since each group's members are drained before the
    next group is delivered, and otherwise the group collection's own error.
   */
  function ListingError(page: Paged<GroupRecord>): RunError
    requires !Drained(page)
  {
    match FirstMembersFailure(page.items)
    case Some(e) => e
    case None => FetchFailed(page.failure.value)
  }

  /**
    The callback of `client.listGroups(...).each` run over the delivered groups
    in order: each group's members are drained before the next group, and the
    first member listing that fails aborts the iteration with its error.
   */
  function CollectGroups(p: Provider, defaults: Option<Annotations>, groups: seq<GroupRecord>): (r: Result<seq<GroupEntity>, RunError>)
    ensures r.Success? <==> forall i :: 0 <= i < |groups| ==> Complete(groups[i].users)
    ensures r.Success? ==> |r.value| == |groups|
    ensures r.Success? ==> forall i :: 0 <= i < |groups| ==> r.value[i] == ToEntity(p, defaults, groups[i])
    ensures r.Failure? ==>
      exists k :: 0 <= k < |groups| && !Complete(groups[k].users) && r.error == MembersFailure(groups[k])
        && forall i :: 0 <= i < k ==> Complete(groups[i].users)
    ensures r.Failure? ==> FirstMembersFailure(groups) == Some(r.error)
  {
    if |groups| == 0 then Success([])
    else
      var last := groups[|groups| - 1];
      assert groups == groups[..|groups| - 1] + [last];
      FirstMembersFailureSnoc(groups[..|groups| - 1], last);
      match CollectGroups(p, defaults, groups[..|groups| - 1])
      case Failure(e) => Failure(e)
      case Success(entities) =>
        if last.users.failure.Some? then Failure(MembersFailure(last))
        else Success(entities + [ToEntity(p, defaults, last)])
  }

  /** A page was drained without any error: neither the groups nor any group's members failed. */
  predicate Drained(page: Paged<GroupRecord>)
  {
    Complete(page) && forall i :: 0 <= i < |page.items| ==> Complete(page.items[i].users)
  }

  /** The private `listGroups`: one query, and the entities of every group it delivers. */
  function ListGroups(p: Provider, client: Client, defaults: Option<Annotations>, group: Option<string>): (r: Result<seq<GroupEntity>, RunError>)
    ensures r.Success? <==> Drained(client(QueryFor(group)))
    ensures r.Failure? ==> r.error.FetchFailed?
    ensures r.Failure? ==> r.error == ListingError(client(QueryFor(group)))
    ensures r.Success? ==> |r.value| == |client(QueryFor(group)).items|
    ensures r.Success? ==> forall i :: 0 <= i < |r.value| ==> r.value[i] == ToEntity(p, defaults, client(QueryFor(group)).items[i])
  {
    var page := client(QueryFor(group));
    match CollectGroups(p, defaults, page.items)
    case Failure(e) => Failure(e)
    case Success(entities) =>
      if page.failure.Some? then Failure(FetchFailed(page.failure.value)) else Success(entities)
  }

  /**
    The `for (const group of this.groups)` loop: `listGroups` once per filter
    name, in list order, accumulating entities until a listing fails. The first
    component is the queries sent, including the one that failed.
   */
  function ListEach(p: Provider, client: Client, defaults: Option<Annotations>, names: seq<string>)
    : (res: (seq<QueryParameters>, Result<seq<GroupEntity>, RunError>))
    ensures |res.0| <= |names|
    ensures res.1.Failure? ==> res.1.error.FetchFailed?
  {
    if |names| == 0 then ([], Success([]))
    else
      var (issued, accumulated) := ListEach(p, client, defaults, names[..|names| - 1]);
      match accumulated
      case Failure(_) => (issued, accumulated)
      case Success(entities) =>
        var last := Some(names[|names| - 1]);
        var issuedNow := issued + [QueryFor(last)];
        match ListGroups(p, client, defaults, last)
        case Failure(e) => (issuedNow, Failure(e))
        case Success(more) => (issuedNow, Success(entities + more))
  }

  /**
    The `if (this.groups) ... else ...` of `run`: any filter list, even an
    empty one, is truthy and drives the per-name loop; without one a single
    unconstrained listing is made.
   */
  function ListConfigured(p: Provider, client: Client, defaults: Option<Annotations>)
    : (res: (seq<QueryParameters>, Result<seq<GroupEntity>, RunError>))
    ensures res.1.Failure? ==> res.1.error.FetchFailed?
    ensures p.groups.None? ==> res.0 == [NoParameters]
  {
    match p.groups
    case Some(names) => ListEach(p, client, defaults, names)
    case None => ([QueryFor(None)], ListGroups(p, client, defaults, None))
  }

  /** `groupResources.map(entity => ({ entity, locationKey }))`. */
  function WithLocationKey(entities: seq<GroupEntity>, key: string): (deferred: seq<DeferredEntity>)
    ensures |deferred| == |entities|
    ensures forall i :: 0 <= i < |entities| ==> deferred[i] == DeferredEntity(entities[i], key)
  {
    seq(|entities|, i requires 0 <= i < |entities| => DeferredEntity(entities[i], key))
  }

  /**
    `run`: without a connection it throws before any query; otherwise it lists
    the groups (per filter name when a filter list is configured, else once
    unconstrained) and, unless a listing failed, applies exactly one full
    mutation whose every entry carries this provider's location key.
   */
  function Run(p: Provider, client: Client, defaults: Option<Annotations>): (r: RunResult)
    ensures r.outcome == Failure(NotInitialized) <==> p.connection.None?
    ensures p.connection.None? ==> r.issued == []
    ensures r.outcome.Success? ==> r.outcome.value.mutationType == FullMutation
    ensures r.outcome.Success? ==>
      forall i :: 0 <= i < |r.outcome.value.entities| ==> r.outcome.value.entities[i].locationKey == ProviderName(p)
  {
    if p.connection.None? then RunResult([], Failure(NotInitialized))
    else
      var (issued, listed) := ListConfigured(p, client, defaults);
      match listed
      case Failure(e) => RunResult(issued, Failure(e))
      case Success(entities) =>
        RunResult(issued, Success(Mutation(FullMutation, WithLocationKey(entities, ProviderName(p)))))
  }
}
