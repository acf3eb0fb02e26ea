/**
  The run written as the source writes it: nested loops that drain each
  listing in order, push one entity per group into a run-scoped accumulator,
  and stop at the first failure. It is proved to compute exactly the
  functional `Run`.
 */
module OktaGroupProviderLoop {
  import opened Wrappers
  import opened OktaClient
  import opened CatalogModel
  import opened OktaGroupEntityProvider

  /** Once a prefix of the groups fails, the whole collection fails with the same error. */
  lemma {:induction false} CollectGroupsStopsAtFailure(p: Provider, defaults: Option<Annotations>, groups: seq<GroupRecord>, k: nat)
    requires k <= |groups|
    requires CollectGroups(p, defaults, groups[..k]).Failure?
    ensures CollectGroups(p, defaults, groups) == CollectGroups(p, defaults, groups[..k])
  {
    if k < |groups| {
      var init := groups[..|groups| - 1];
      assert init[..k] == groups[..k];
      CollectGroupsStopsAtFailure(p, defaults, init, k);
    } else {
      assert groups[..k] == groups;
    }
  }

  /** One more group of the collection: its entity is appended, or its member listing's error ends it. */
  lemma CollectGroupsStep(p: Provider, defaults: Option<Annotations>, groups: seq<GroupRecord>, i: nat)
    requires i < |groups|
    requires CollectGroups(p, defaults, groups[..i]).Success?
    ensures groups[i].users.failure.Some? ==>
      CollectGroups(p, defaults, groups[..i + 1]) == Failure(MembersFailure(groups[i]))
    ensures groups[i].users.failure.None? ==>
      CollectGroups(p, defaults, groups[..i + 1])
        == Success(CollectGroups(p, defaults, groups[..i]).value + [ToEntity(p, defaults, groups[i])])
  {
    assert groups[..i + 1][..i] == groups[..i];
  }

  /** Once the loop over a prefix of the filter names fails, the whole loop ends the same way. */
  lemma {:induction false} ListEachStopsAtFailure(p: Provider, client: Client, defaults: Option<Annotations>, names: seq<string>, k: nat)
    requires k <= |names|
    requires ListEach(p, client, defaults, names[..k]).1.Failure?
    ensures ListEach(p, client, defaults, names) == ListEach(p, client, defaults, names[..k])
  {
    if k < |names| {
      var init := names[..|names| - 1];
      assert init[..k] == names[..k];
      ListEachStopsAtFailure(p, client, defaults, init, k);
    } else {
      assert names[..k] == names;
    }
  }

  /** `group.listUsers().each(user => members.push(...))`. */
  method NameMembers(strategy: UserRecord -> string, users: seq<UserRecord>) returns (members: seq<string>)
    ensures |members| == |users|
    ensures forall i :: 0 <= i < |users| ==> members[i] == strategy(users[i])
  {
    members := [];
    var j := 0;
    while j < |users|
      invariant 0 <= j <= |users|
      invariant |members| == j
      invariant forall i :: 0 <= i < j ==> members[i] == strategy(users[i])
    {
      members := members + [strategy(users[j])];
      j := j + 1;
    }
  }

  /** The private `listGroups`, draining the group collection with an explicit loop. */
  method ListGroupsLoop(p: Provider, client: Client, defaults: Option<Annotations>, group: Option<string>)
    returns (r: Result<seq<GroupEntity>, RunError>)
    ensures r == ListGroups(p, client, defaults, group)
  {
    var page := client(QueryFor(group));
    var resources: seq<GroupEntity> := [];
    var i := 0;
    while i < |page.items|
      invariant 0 <= i <= |page.items|
      invariant CollectGroups(p, defaults, page.items[..i]) == Success(resources)
    {
      var g := page.items[i];
      var members := NameMembers(p.userNamingStrategy, g.users.items);
      CollectGroupsStep(p, defaults, page.items, i);
      if g.users.failure.Some? {
        CollectGroupsStopsAtFailure(p, defaults, page.items, i + 1);
        return Failure(FetchFailed(g.users.failure.value));
      }
      assert members == MemberNames(p.userNamingStrategy, g.users.items);
      resources := resources + [GroupEntityOf(p, defaults, g, members)];
      i := i + 1;
    }
    assert page.items[..i] == page.items;
    if page.failure.Some? {
      return Failure(FetchFailed(page.failure.value));
    }
    return Success(resources);
  }

  /** One more filter name: its query is sent, and its listing either extends the entities or ends the loop. */
  lemma ListEachStep(p: Provider, client: Client, defaults: Option<Annotations>, names: seq<string>, k: nat)
    requires k < |names|
    requires ListEach(p, client, defaults, names[..k]).1.Success?
    ensures
      var (issued, accumulated) := ListEach(p, client, defaults, names[..k]);
      var listed := ListGroups(p, client, defaults, Some(names[k]));
      ListEach(p, client, defaults, names[..k + 1])
        == (issued + [QueryFor(Some(names[k]))],
            if listed.Failure? then Failure(listed.error) else Success(accumulated.value + listed.value))
  {
    assert names[..k + 1][..k] == names[..k];
  }

  /** `for (const group of this.groups) await this.listGroups(...)`, stopping at the first failure. */
  method ListEachLoop(p: Provider, client: Client, defaults: Option<Annotations>, names: seq<string>)
    returns (issued: seq<QueryParameters>, r: Result<seq<GroupEntity>, RunError>)
    ensures (issued, r) == ListEach(p, client, defaults, names)
  {
    issued := [];
    var resources: seq<GroupEntity> := [];
    var k := 0;
    while k < |names|
      invariant 0 <= k <= |names|
      invariant ListEach(p, client, defaults, names[..k]) == (issued, Success(resources))
    {
      var name := Some(names[k]);
      ListEachStep(p, client, defaults, names, k);
      issued := issued + [QueryFor(name)];
      var listed := ListGroupsLoop(p, client, defaults, name);
      if listed.Failure? {
        ListEachStopsAtFailure(p, client, defaults, names, k + 1);
        return issued, Failure(listed.error);
      }
      resources := resources + listed.value;
      k := k + 1;
    }
    assert names[..k] == names;
    r := Success(resources);
  }

  /** `groupResources.map(entity => ({ entity, locationKey }))`, as a loop. */
  method DeferLoop(entities: seq<GroupEntity>, key: string) returns (entries: seq<DeferredEntity>)
    ensures |entries| == |entities|
    ensures forall i :: 0 <= i < |entities| ==> entries[i] == DeferredEntity(entities[i], key)
  {
    entries := [];
    var i := 0;
    while i < |entities|
      invariant 0 <= i <= |entities|
      invariant |entries| == i
      invariant forall j :: 0 <= j < i ==> entries[j] == DeferredEntity(entities[j], key)
    {
      entries := entries + [DeferredEntity(entities[i], key)];
      i := i + 1;
    }
  }

  /** `run`, with the filter loop and the final `applyMutation` argument written out. */
  method RunLoop(p: Provider, client: Client, defaults: Option<Annotations>) returns (result: RunResult)
    ensures result == Run(p, client, defaults)
  {
    if p.connection.None? {
      return RunResult([], Failure(NotInitialized));
    }
    var issued: seq<QueryParameters>;
    var listed: Result<seq<GroupEntity>, RunError>;
    match p.groups {
      case Some(names) =>
        issued, listed := ListEachLoop(p, client, defaults, names);
      case None =>
        issued := [QueryFor(None)];
        listed := ListGroupsLoop(p, client, defaults, None);
    }
    assert (issued, listed) == ListConfigured(p, client, defaults);
    if listed.Failure? {
      return RunResult(issued, Failure(listed.error));
    }
    var entries := DeferLoop(listed.value, ProviderName(p));
    assert entries == WithLocationKey(listed.value, ProviderName(p));
    return RunResult(issued, Success(Mutation(FullMutation, entries)));
  }
}
