/**
  What one run of the group provider does, stated against an independent
  reference: the queries the configuration calls for, and the concatenation
  of the groups the client delivers for them.
 */
module OktaGroupProviderProperties {
  import opened Wrappers
  import opened OktaClient
  import opened CatalogModel
  import opened OktaGroupEntityProvider

  /** One query per filter name, in list order. */
  function Searches(names: seq<string>): seq<QueryParameters>
  {
    seq(|names|, i requires 0 <= i < |names| => QueryFor(Some(names[i])))
  }

  /** The queries a run is meant to send: one per filter name, or a single unconstrained one. */
  function ExpectedQueries(groups: Option<seq<string>>): seq<QueryParameters>
  {
    match groups
    case Some(names) => Searches(names)
    case None => [NoParameters]
  }

  /** Every group the client delivers for the queries, in query order and then delivery order. */
  function Delivered(client: Client, queries: seq<QueryParameters>): seq<GroupRecord>
  {
    if |queries| == 0 then []
    else Delivered(client, queries[..|queries| - 1]) + client(queries[|queries| - 1]).items
  }

  lemma DeliveredSingle(client: Client, q: QueryParameters)
    ensures Delivered(client, [q]) == client(q).items
  {
  }

  /** No listing of these queries fails. */
  predicate AllDrained(client: Client, queries: seq<QueryParameters>)
  {
    forall i :: 0 <= i < |queries| ==> Drained(client(queries[i]))
  }

  /** The entity list a successful run emits, as a reference: one entity per delivered group. */
  predicate EntitiesOfDelivered(p: Provider, defaults: Option<Annotations>, groups: seq<GroupRecord>, entities: seq<GroupEntity>)
  {
    |entities| == |groups| && forall i :: 0 <= i < |groups| ==> entities[i] == ToEntity(p, defaults, groups[i])
  }

  /** The total number of groups the client delivers for the queries. */
  function DeliveredCount(client: Client, queries: seq<QueryParameters>): nat
  {
    if |queries| == 0 then 0
    else DeliveredCount(client, queries[..|queries| - 1]) + |client(queries[|queries| - 1]).items|
  }

  lemma {:induction false} DeliveredCountIsLength(client: Client, queries: seq<QueryParameters>)
    ensures |Delivered(client, queries)| == DeliveredCount(client, queries)
  {
    if |queries| > 0 {
      DeliveredCountIsLength(client, queries[..|queries| - 1]);
    }
  }

  lemma SearchesSnoc(names: seq<string>)
    requires |names| > 0
    ensures Searches(names[..|names| - 1]) == Searches(names)[..|names| - 1]
    ensures Searches(names) == Searches(names[..|names| - 1]) + [QueryFor(Some(names[|names| - 1]))]
  {
  }

  /** The filter loop succeeds exactly when no listing of a configured name fails. */
  lemma {:induction false} ListEachSucceedsIffDrained(p: Provider, client: Client, defaults: Option<Annotations>, names: seq<string>)
    ensures ListEach(p, client, defaults, names).1.Success? <==> AllDrained(client, Searches(names))
  {
    if |names| > 0 {
      var init := names[..|names| - 1];
      ListEachSucceedsIffDrained(p, client, defaults, init);
      SearchesSnoc(names);
      var searches := Searches(names);
      assert AllDrained(client, searches) <==>
        AllDrained(client, Searches(init)) && Drained(client(searches[|names| - 1]));
    }
  }

  /**
    A successful filter loop has sent one query per name, in list order, and
    collected one entity per delivered group, in query and delivery order.
   */
  lemma {:induction false} ListEachSuccess(p: Provider, client: Client, defaults: Option<Annotations>, names: seq<string>)
    requires ListEach(p, client, defaults, names).1.Success?
    ensures ListEach(p, client, defaults, names).0 == Searches(names)
    ensures EntitiesOfDelivered(p, defaults, Delivered(client, Searches(names)), ListEach(p, client, defaults, names).1.value)
  {
    if |names| > 0 {
      var n := |names|;
      var init := names[..n - 1];
      SearchesSnoc(names);
      var (issued, accumulated) := ListEach(p, client, defaults, init);
      assert accumulated.Success?;
      ListEachSuccess(p, client, defaults, init);
      var last := Some(names[n - 1]);
      var q := QueryFor(last);
      var listed := ListGroups(p, client, defaults, last);
      assert listed.Success?;
      var entities := accumulated.value + listed.value;
      assert ListEach(p, client, defaults, names).1.value == entities;
      var earlier := Delivered(client, Searches(init));
      var groups := Delivered(client, Searches(names));
      assert groups == earlier + client(q).items;
      forall i | 0 <= i < |groups|
        ensures entities[i] == ToEntity(p, defaults, groups[i])
      {
        if i >= |earlier| {
          assert groups[i] == client(q).items[i - |earlier|];
        }
      }
    }
  }

  /**
    A failed filter loop has sent the queries up to and including the first
    one whose listing failed, and none after it, and propagates that
    listing's error unchanged.
   */
  lemma {:induction false} ListEachFailure(p: Provider, client: Client, defaults: Option<Annotations>, names: seq<string>)
    requires ListEach(p, client, defaults, names).1.Failure?
    ensures
      var issued := ListEach(p, client, defaults, names).0;
      var outcome := ListEach(p, client, defaults, names).1;
      && 0 < |issued| <= |names|
      && issued == Searches(names)[..|issued|]
      && AllDrained(client, issued[..|issued| - 1])
      && !Drained(client(issued[|issued| - 1]))
      && outcome.error == ListingError(client(issued[|issued| - 1]))
  {
    var n := |names|;
    var init := names[..n - 1];
    SearchesSnoc(names);
    var (issued, accumulated) := ListEach(p, client, defaults, init);
    if accumulated.Failure? {
      ListEachFailure(p, client, defaults, init);
    } else {
      ListEachSuccess(p, client, defaults, init);
      ListEachSucceedsIffDrained(p, client, defaults, init);
      assert (issued + [QueryFor(Some(names[n - 1]))])[..n - 1] == issued;
    }
  }

  /** A run on a connected provider succeeds exactly when no listing of the configured queries fails. */
  lemma RunSucceedsIffDrained(p: Provider, client: Client, defaults: Option<Annotations>)
    requires p.connection.Some?
    ensures Run(p, client, defaults).outcome.Success? <==> AllDrained(client, ExpectedQueries(p.groups))
  {
    match p.groups
    case Some(names) =>
      ListEachSucceedsIffDrained(p, client, defaults, names);
    case None =>
      assert QueryFor(None) == NoParameters;
      assert [NoParameters][0] == NoParameters;
      assert AllDrained(client, [NoParameters]) <==> Drained(client(NoParameters));
  }

  /**
    A successful run sent exactly the configured queries, and its one full
    mutation holds, in order, one entry per delivered group, keyed by this
    provider's name; nothing is merged or deduplicated.
   */
  lemma RunSuccess(p: Provider, client: Client, defaults: Option<Annotations>)
    requires Run(p, client, defaults).outcome.Success?
    ensures Run(p, client, defaults).issued == ExpectedQueries(p.groups)
    ensures |Run(p, client, defaults).outcome.value.entities| == |Delivered(client, ExpectedQueries(p.groups))|
    ensures forall i :: 0 <= i < |Delivered(client, ExpectedQueries(p.groups))| ==>
      Run(p, client, defaults).outcome.value.entities[i]
        == DeferredEntity(ToEntity(p, defaults, Delivered(client, ExpectedQueries(p.groups))[i]), ProviderName(p))
  {
    var (issued, listed) := ListConfigured(p, client, defaults);
    assert listed.Success?;
    var groups := Delivered(client, ExpectedQueries(p.groups));
    assert EntitiesOfDelivered(p, defaults, groups, listed.value) by {
      match p.groups
      case Some(names) =>
        ListEachSuccess(p, client, defaults, names);
      case None =>
        assert QueryFor(None) == NoParameters;
        assert groups == Delivered(client, []) + client(NoParameters).items;
    }
    assert issued == ExpectedQueries(p.groups) by {
      if p.groups.Some? {
        ListEachSuccess(p, client, defaults, p.groups.value);
      }
    }
  }

  /**
    A run that fails after connecting fails with a fetch error, having sent a
    prefix of the configured queries that ends with the first one whose
    listing failed; the error is that listing's own, unchanged.
   */
  lemma RunFailure(p: Provider, client: Client, defaults: Option<Annotations>)
    requires p.connection.Some?
    requires Run(p, client, defaults).outcome.Failure?
    ensures
      var r := Run(p, client, defaults);
      && r.outcome.error.FetchFailed?
      && 0 < |r.issued| <= |ExpectedQueries(p.groups)|
      && r.issued == ExpectedQueries(p.groups)[..|r.issued|]
      && AllDrained(client, r.issued[..|r.issued| - 1])
      && !Drained(client(r.issued[|r.issued| - 1]))
      && r.outcome.error == ListingError(client(r.issued[|r.issued| - 1]))
  {
    if p.groups.Some? {
      ListEachFailure(p, client, defaults, p.groups.value);
    }
  }

  /**
    Every entity of a successful run is a Group of the fixed API version,
    named by the group naming strategy, titled and described from the group's
    profile, annotated with a copy of the defaults, with no children and with
    the user naming strategy's name for each member, in delivery order and
    with duplicates kept.
   */
  lemma RunEntityFields(p: Provider, client: Client, defaults: Option<Annotations>, i: nat)
    requires Run(p, client, defaults).outcome.Success?
    requires i < |Delivered(client, ExpectedQueries(p.groups))|
    ensures i < |Run(p, client, defaults).outcome.value.entities|
    ensures
      var g := Delivered(client, ExpectedQueries(p.groups))[i];
      var e := Run(p, client, defaults).outcome.value.entities[i].entity;
      && e.kind == "Group"
      && e.apiVersion == "backstage.io/v1alpha1"
      && e.metadata.name == p.namingStrategy(g)
      && e.metadata.title == g.profile.name
      && e.metadata.description == g.profile.description
      && e.metadata.annotations == AnnotationsCopy(defaults)
      && e.spec.groupType == "group"
      && e.spec.children == []
      && |e.spec.members| == |g.users.items|
      && forall j :: 0 <= j < |g.users.items| ==> e.spec.members[j] == p.userNamingStrategy(g.users.items[j])
  {
    RunSuccess(p, client, defaults);
  }
}
