/**
  Consequences of the run characterisation for the configurations the
  provider distinguishes, and the scenarios its test suite exercises.
 */
module OktaGroupProviderCases {
  import opened Wrappers
  import opened OktaClient
  import opened CatalogModel
  import opened OktaGroupEntityProvider
  import opened OktaGroupProviderProperties

  /** A freshly constructed provider has no connection, so running it throws before any query. */
  lemma NewProviderNotInitialized(
    orgUrl: string,
    namingStrategy: GroupRecord -> string,
    userNamingStrategy: UserRecord -> string,
    groups: Option<seq<string>>,
    client: Client,
    defaults: Option<Annotations>)
    ensures Run(NewProvider(orgUrl, namingStrategy, userNamingStrategy, groups), client, defaults)
      == RunResult([], Failure(NotInitialized))
  {
  }

  /** Location keys of two providers coincide exactly when their org URLs do. */
  lemma ProviderNameInjective(p: Provider, p': Provider)
    ensures ProviderName(p) == ProviderName(p') <==> p.orgUrl == p'.orgUrl
  {
  }

  /** An empty filter list is still a list: no query is sent and the mutation is empty. */
  lemma EmptyFilterListQueriesNothing(p: Provider, client: Client, defaults: Option<Annotations>)
    requires p.connection.Some? && p.groups == Some([])
    ensures Run(p, client, defaults) == RunResult([], Success(Mutation(FullMutation, [])))
  {
  }

  /** Without a filter list exactly one unconstrained query is sent. */
  lemma NoFilterQueriesOnceUnconstrained(p: Provider, client: Client, defaults: Option<Annotations>)
    requires p.connection.Some? && p.groups.None?
    ensures Run(p, client, defaults).issued == [NoParameters]
  {
  }

  /**
    An empty filter name is falsy, so its query is unconstrained and a
    successful run emits an entity for every group the client lists.
   */
  lemma EmptyFilterNameIsUnconstrained(p: Provider, client: Client, defaults: Option<Annotations>)
    requires p.connection.Some? && p.groups == Some([""])
    ensures Run(p, client, defaults).issued == [NoParameters]
    ensures Run(p, client, defaults).outcome.Success? ==>
      var groups := client(NoParameters).items;
      var entries := Run(p, client, defaults).outcome.value.entities;
      && |entries| == |groups|
      && forall i :: 0 <= i < |groups| ==> entries[i].entity == ToEntity(p, defaults, groups[i])
  {
    assert Searches([""]) == [NoParameters] by {
      assert Searches([""])[0] == QueryFor(Some("")) == NoParameters;
    }
    assert ExpectedQueries(p.groups) == [NoParameters];
    DeliveredSingle(client, NoParameters);
    RunSucceedsIffDrained(p, client, defaults);
    if Run(p, client, defaults).outcome.Success? {
      RunSuccess(p, client, defaults);
      var groups := client(NoParameters).items;
      var entries := Run(p, client, defaults).outcome.value.entities;
      forall i | 0 <= i < |groups|
        ensures entries[i].entity == ToEntity(p, defaults, groups[i])
      {
        assert entries[i] == DeferredEntity(ToEntity(p, defaults, groups[i]), ProviderName(p));
      }
    } else {
      RunFailure(p, client, defaults);
      assert [NoParameters][..1] == [NoParameters];
    }
  }

  /**
    A single non-empty filter name sends exactly one query, constrained to
    that name, and a successful run emits entities only for the groups that
    query returns.
   */
  lemma SingleFilterQueriesThatName(p: Provider, client: Client, defaults: Option<Annotations>, name: string)
    requires p.connection.Some? && p.groups == Some([name]) && name != ""
    ensures Run(p, client, defaults).issued == [Search(name)]
    ensures Run(p, client, defaults).outcome.Success? ==>
      var groups := client(Search(name)).items;
      var entries := Run(p, client, defaults).outcome.value.entities;
      && |entries| == |groups|
      && forall i :: 0 <= i < |groups| ==> entries[i].entity == ToEntity(p, defaults, groups[i])
  {
    var expected := [Search(name)];
    assert Searches([name]) == expected by {
      assert Searches([name])[0] == QueryFor(Some(name)) == Search(name);
    }
    DeliveredSingle(client, Search(name));
    if Run(p, client, defaults).outcome.Success? {
      RunSuccess(p, client, defaults);
    } else {
      RunFailure(p, client, defaults);
      assert |Run(p, client, defaults).issued| == 1;
      assert expected[..1] == expected;
    }
  }

  /**
    Nothing is deduplicated: a filter name listed twice sends its query twice
    and emits the entities of the groups it returns twice, once in each half.
   */
  lemma RepeatedFilterNameDuplicatesEntities(p: Provider, client: Client, defaults: Option<Annotations>, name: string)
    requires p.connection.Some? && p.groups == Some([name, name])
    requires Drained(client(QueryFor(Some(name))))
    ensures Run(p, client, defaults).outcome.Success?
    ensures
      var groups := client(QueryFor(Some(name))).items;
      var entries := Run(p, client, defaults).outcome.value.entities;
      && |entries| == 2 * |groups|
      && forall i :: 0 <= i < |groups| ==>
           && entries[i].entity == ToEntity(p, defaults, groups[i])
           && entries[|groups| + i].entity == ToEntity(p, defaults, groups[i])
  {
    var q := QueryFor(Some(name));
    assert Searches([name, name]) == [q, q];
    RunSucceedsIffDrained(p, client, defaults);
    RunSuccess(p, client, defaults);
    DeliveredTwice(client, q);
    var groups := client(q).items;
    var delivered := Delivered(client, [q, q]);
    var entries := Run(p, client, defaults).outcome.value.entities;
    forall i | 0 <= i < |groups|
      ensures entries[i].entity == ToEntity(p, defaults, groups[i])
      ensures entries[|groups| + i].entity == ToEntity(p, defaults, groups[i])
    {
      assert delivered[i] == groups[i];
      assert delivered[|groups| + i] == groups[i];
      assert entries[i] == DeferredEntity(ToEntity(p, defaults, delivered[i]), ProviderName(p));
      assert entries[|groups| + i] == DeferredEntity(ToEntity(p, defaults, delivered[|groups| + i]), ProviderName(p));
    }
  }

  /** The same query sent twice delivers its groups twice, back to back. */
  lemma DeliveredTwice(client: Client, q: QueryParameters)
    ensures Delivered(client, [q, q]) == client(q).items + client(q).items
  {
    assert [q, q][..1] == [q];
    DeliveredSingle(client, q);
  }

  /**
    A member listing that fails comes before the failure of a later page of
    groups: the run propagates the member error, not the page error.
   */
  lemma MemberErrorPrecedesPageError(p: Provider, client: Client, defaults: Option<Annotations>, g: GroupRecord, memberError: string, pageError: string)
    requires p.connection.Some? && p.groups.None?
    requires g.users.failure == Some(memberError)
    requires client(NoParameters) == Paged([g], Some(pageError))
    ensures Run(p, client, defaults) == RunResult([NoParameters], Failure(FetchFailed(memberError)))
  {
  }

  /** The scenario "where there is no groups": one empty full mutation. */
  lemma NoGroupsGiveEmptyMutation(p: Provider, client: Client, defaults: Option<Annotations>)
    requires p.connection.Some? && p.groups.None?
    requires client(NoParameters) == Paged([], None)
    ensures Run(p, client, defaults) == RunResult([NoParameters], Success(Mutation(FullMutation, [])))
  {
  }

  /** The member and the group of the test suite's client. */
  function TestMember(): UserRecord
  {
    UserRecord("asdfwefwefwef", UserProfile("fname@domain.com"))
  }

  function TestGroup(id: string): GroupRecord
  {
    GroupRecord(
      id,
      GroupProfile("Everyone@the-company", Some("Everyone in the company")),
      Paged([TestMember()], None))
  }

  /** The single entry the test suite expects, given the names the strategies produce. */
  function ExpectedEntry(p: Provider, defaults: Option<Annotations>, groupName: string, memberName: string): DeferredEntity
  {
    DeferredEntity(
      GroupEntity(
        "Group",
        "backstage.io/v1alpha1",
        Metadata(AnnotationsCopy(defaults), groupName, "Everyone@the-company", Some("Everyone in the company")),
        GroupSpec([memberName], "group", [])),
      "okta-group-" + p.orgUrl)
  }

  lemma SingleMemberEntity(p: Provider, defaults: Option<Annotations>, g: GroupRecord, groupName: string, memberName: string)
    requires g == TestGroup(g.id)
    requires p.namingStrategy(g) == groupName
    requires p.userNamingStrategy(TestMember()) == memberName
    ensures DeferredEntity(ToEntity(p, defaults, g), ProviderName(p)) == ExpectedEntry(p, defaults, groupName, memberName)
  {
  }

  /**
    The scenario "where there is a group filter": the filter `["group1"]`
    sends only the query `q = group1`, and the mutation holds the one group
    it returns, named by the default strategies from the raw ids.
   */
  lemma FilterScenario(p: Provider, client: Client, defaults: Option<Annotations>)
    requires p.connection.Some? && p.groups == Some(["group1"])
    requires client(Search("group1")) == Paged([TestGroup("group1")], None)
    requires p.namingStrategy(TestGroup("group1")) == "group1"
    requires p.userNamingStrategy(TestMember()) == "asdfwefwefwef"
    ensures Run(p, client, defaults)
      == RunResult([Search("group1")], Success(Mutation("full", [ExpectedEntry(p, defaults, "group1", "asdfwefwefwef")])))
  {
    var g := TestGroup("group1");
    assert QueryFor(Some("group1")) == Search("group1");
    SingleFilterSucceeds(p, client, defaults, "group1");
    SingleFilterQueriesThatName(p, client, defaults, "group1");
    OneGroupRun(p, client, defaults, Search("group1"), g, "group1", "asdfwefwefwef");
  }

  /** A successful run that sent one query and emitted one test group's entity applies exactly the expected entry. */
  lemma OneGroupRun(
    p: Provider, client: Client, defaults: Option<Annotations>,
    q: QueryParameters, g: GroupRecord, groupName: string, memberName: string)
    requires Run(p, client, defaults).outcome.Success? && Run(p, client, defaults).issued == [q]
    requires |Run(p, client, defaults).outcome.value.entities| == 1
    requires Run(p, client, defaults).outcome.value.entities[0].entity == ToEntity(p, defaults, g)
    requires g == TestGroup(g.id)
    requires p.namingStrategy(g) == groupName
    requires p.userNamingStrategy(TestMember()) == memberName
    ensures Run(p, client, defaults)
      == RunResult([q], Success(Mutation("full", [ExpectedEntry(p, defaults, groupName, memberName)])))
  {
    var r := Run(p, client, defaults);
    var entries := r.outcome.value.entities;
    assert entries[0].locationKey == ProviderName(p);
    SingleMemberEntity(p, defaults, g, groupName, memberName);
    assert entries == [ExpectedEntry(p, defaults, groupName, memberName)];
  }

  /**
    With a single filter name, empty or not, a run succeeds when the listing
    of that name's query does not fail.
   */
  lemma SingleFilterSucceeds(p: Provider, client: Client, defaults: Option<Annotations>, name: string)
    requires p.connection.Some? && p.groups == Some([name])
    requires Drained(client(QueryFor(Some(name))))
    ensures Run(p, client, defaults).outcome.Success?
  {
    RunSucceedsIffDrained(p, client, defaults);
    assert Searches([name]) == [QueryFor(Some(name))] by {
      assert Searches([name])[0] == QueryFor(Some(name));
    }
    assert AllDrained(client, [QueryFor(Some(name))]);
  }

  /**
    The scenarios "where there is a group", for the default strategies and
    for kebab-case group names with strip-domain user names: whatever names
    the strategies give, the unfiltered run emits that one group with that
    one member.
   */
  lemma SingleGroupScenario(p: Provider, client: Client, defaults: Option<Annotations>, groupName: string, memberName: string)
    requires p.connection.Some? && p.groups.None?
    requires client(NoParameters) == Paged([TestGroup("asdfwefwefwef")], None)
    requires p.namingStrategy(TestGroup("asdfwefwefwef")) == groupName
    requires p.userNamingStrategy(TestMember()) == memberName
    ensures Run(p, client, defaults)
      == RunResult([NoParameters], Success(Mutation("full", [ExpectedEntry(p, defaults, groupName, memberName)])))
  {
    var g := TestGroup("asdfwefwefwef");
    RunSucceedsIffDrained(p, client, defaults);
    assert AllDrained(client, [NoParameters]);
    RunSuccess(p, client, defaults);
    DeliveredSingle(client, NoParameters);
    var entries := Run(p, client, defaults).outcome.value.entities;
    SingleMemberEntity(p, defaults, g, groupName, memberName);
    assert entries[0] == ExpectedEntry(p, defaults, groupName, memberName);
    assert entries == [entries[0]];
  }
}
