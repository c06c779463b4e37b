/**
 * End-to-end runs of the lifecycle engine on small, concrete plugin sets,
 * using the default weights of the gRPC (500) and tracer (700) plugins.
 * Each method builds its own factory and manager and states what the
 * operations' contracts alone guarantee about the outcome.
 */
module Scenarios {
  import opened Wrappers
  import opened Plugins
  import opened Manager
  import Discovery

  /**
   * Registering a name twice keeps the second constructor, silently.
   */
  method LastRegistrationWins() returns (r: Result<Plugin>)
    ensures r == Ok(Plugin("grpc", 900))
  {
    var f := new Factory();
    f.Register("grpc", Plugin("grpc", 500));
    f.Register("grpc", Plugin("grpc", 900));
    r := f.Create("grpc");
  }

  /**
   * A manager given a single initial plugin keeps none of it.
   */
  method SingleInitialPluginDropped() returns (found: Option<Plugin>, active: nat)
    ensures found == None && active == 0
  {
    var f := new Factory();
    var m := new PluginManager([Plugin("grpc", 500)], f);
    found := m.GetPlugin("grpc");
    active := |m.plugins|;
  }

  /**
   * A (weight 100), B and C (weight 500): A is loaded last; which of B and
   * C comes first is not fixed, because the sort is not stable.
   */
  method HeaviestLoadFirst() returns (trace: seq<Event>, outcome: LoadOutcome)
    ensures outcome == AllLoaded
    ensures |trace| == 3 && trace[2].plugin == "A"
    ensures {trace[0].plugin, trace[1].plugin} == {"B", "C"}
  {
    var f := new Factory();
    var a, b, c := Plugin("A", 100), Plugin("B", 500), Plugin("C", 500);
    var m := new PluginManager([a, b, c], f);
    trace, outcome := m.LoadPlugins(map[], {});
    LightestLast(m.plugins, a, b, c);
  }

  /**
   * tracer (700), grpc (500) and late (0), where grpc's Load errors: tracer
   * and grpc are attempted, in that order and with their own configuration,
   * the sequence panics at grpc and late is never loaded.
   */
  method FailingLoadStopsSequence() returns (trace: seq<Event>, outcome: LoadOutcome)
    ensures outcome == Panicked(1, "grpc")
    ensures trace == [Event("tracer", Load(None)), Event("grpc", Load(Some("grpc-conf")))]
  {
    var f := new Factory();
    var grpc, tracer, late := Plugin("grpc", 500), Plugin("tracer", 700), Plugin("late", 0);
    var m := new PluginManager([grpc, tracer, late], f);
    trace, outcome := m.LoadPlugins(map["grpc" := "grpc-conf"], {"grpc"});
    DistinctWeightsOrder(m.plugins, tracer, grpc, late);
    PanicAtGrpc(m.plugins, trace, outcome);
  }

  /** Loading tracer, grpc, late in that order, with grpc failing: the run stops at grpc. */
  lemma PanicAtGrpc(ps: seq<Plugin>, trace: seq<Event>, outcome: LoadOutcome)
    requires ps == [Plugin("tracer", 700), Plugin("grpc", 500), Plugin("late", 0)]
    requires FailFast(ps, map["grpc" := "grpc-conf"], {"grpc"}, trace, outcome)
    ensures outcome == Panicked(1, "grpc")
    ensures trace == [Event("tracer", Load(None)), Event("grpc", Load(Some("grpc-conf")))]
  {
    assert ps[1].name in {"grpc"};
    FailFastShape(ps, map["grpc" := "grpc-conf"], {"grpc"}, trace, outcome);
  }

  /**
   * After LoadPlugins has sorted the list, UnloadPlugins walks the sorted
   * order, not the order the plugins were given in.
   */
  method UnloadFollowsSortedOrder() returns (trace: seq<Event>, logged: seq<string>)
    ensures trace == [Event("tracer", Unload), Event("grpc", Unload)]
    ensures logged == ["tracer"]
  {
    var f := new Factory();
    var grpc, tracer := Plugin("grpc", 500), Plugin("tracer", 700);
    var m := new PluginManager([grpc, tracer], f);
    var loads, outcome := m.LoadPlugins(map[], {});
    var ps := m.plugins;
    assert multiset(ps) == multiset{grpc, tracer};
    assert |ps| == 2 by {
      assert |multiset(ps)| == 2;
    }
    assert ps[0] == tracer by {
      assert tracer in multiset(ps);
      assert ps[1] == tracer ==> ps[0] == grpc;
    }
    assert ps[1] == grpc by {
      assert grpc in multiset(ps);
    }
    assert ps == [tracer, grpc];
    assert ps[..1] == [tracer] && [tracer][..0] == [];
    assert Failing([tracer], {"tracer"}) == ["tracer"];
    assert Failing(ps, {"tracer"}) == ["tracer"];
    trace, logged := m.UnloadPlugins({"tracer"});
  }

  /**
   * Section "cache" lists "redis", which is registered, but the
   * configuration has no "cache" section: nothing is activated.
   */
  method AbsentSectionActivatesNothing() returns (names: seq<string>, active: seq<Plugin>)
    ensures names == []
    ensures active == [Plugin("grpc", 500), Plugin("tracer", 700)]
  {
    var f := new Factory();
    f.Register("redis", Plugin("redis", 100));
    f.table := map["cache" := ["redis"]];
    var m := new PluginManager([Plugin("grpc", 500), Plugin("tracer", 700)], f);
    assert m.plugins == [Plugin("grpc", 500), Plugin("tracer", 700)];
    names := m.PreparePlug({}, ["cache"]);
    assert Discovery.Activated({}, f.table) == {};
    assert WellNamed(f.creators);
    active := m.plugins;
    assert active == active[..2];
  }

  /**
   * Sections "cache" (listing redis) and "trace" (listing tracer and redis)
   * are both present, tracer is already active: whichever order the table is
   * visited in, exactly redis is activated, once.
   */
  method DiscoveryIgnoresVisitOrder(keys: seq<string>) returns (names: seq<string>, redis: Option<Plugin>)
    requires forall k :: k in keys <==> k == "cache" || k == "trace"
    ensures names == ["redis"]
    ensures redis == Some(Plugin("redis", 100))
  {
    var f := new Factory();
    f.Register("redis", Plugin("redis", 100));
    f.Register("tracer", Plugin("tracer", 700));
    f.table := map["cache" := ["redis"], "trace" := ["tracer", "redis"]];
    var m := new PluginManager([Plugin("grpc", 500), Plugin("tracer", 700)], f);
    TwoPluginIndex(Plugin("grpc", 500), Plugin("tracer", 700));
    OnlyRedisIsNew(f.creators, m.plugMap, f.table);
    names := m.PreparePlug({"cache", "trace"}, keys);
    SingleName(names, "redis");
    redis := m.GetPlugin("redis");
  }

  /**
   * With redis and tracer registered, grpc and tracer active and both
   * sections present, redis is the one name discovery may add.
   */
  lemma OnlyRedisIsNew(creators: map<string, Plugin>, active: map<string, Plugin>, table: map<string, seq<string>>)
    requires creators == map["redis" := Plugin("redis", 100), "tracer" := Plugin("tracer", 700)]
    requires active == map["grpc" := Plugin("grpc", 500), "tracer" := Plugin("tracer", 700)]
    requires table == map["cache" := ["redis"], "trace" := ["tracer", "redis"]]
    ensures WellNamed(creators)
    ensures Discovery.Activated({"cache", "trace"}, table) * creators.Keys - active.Keys == {"redis"}
  {
    BothSectionsActivate(table);
  }

  /** A list of as many entries as a singleton has members, all of them that member, is that one entry. */
  lemma SingleName(names: seq<string>, n: string)
    requires |names| == |{n}|
    requires forall x :: x in names ==> x in {n}
    ensures names == [n]
  {
    assert names[0] in names;
  }

  /** Ties are left open: with b and c of equal weight above a, both orders of b and c are sorted permutations. */
  lemma EqualWeightsEitherOrder(a: Plugin, b: Plugin, c: Plugin)
    requires a.weight < b.weight && b.weight == c.weight
    ensures SortedByWeight([b, c, a]) && multiset([b, c, a]) == multiset([a, b, c])
    ensures SortedByWeight([c, b, a]) && multiset([c, b, a]) == multiset([a, b, c])
  {
  }

  /** A permutation of x, y, z has three entries, each one of them, and holds each of them. */
  lemma PermutationOfThree(ps: seq<Plugin>, x: Plugin, y: Plugin, z: Plugin)
    requires multiset(ps) == multiset{x, y, z}
    ensures |ps| == 3
    ensures forall i :: 0 <= i < 3 ==> ps[i] == x || ps[i] == y || ps[i] == z
    ensures x in ps && y in ps && z in ps
  {
    assert |multiset(ps)| == 3;
    forall i | 0 <= i < |ps| ensures ps[i] == x || ps[i] == y || ps[i] == z {
      assert ps[i] in multiset(ps);
    }
    assert x in multiset(ps) && y in multiset(ps) && z in multiset(ps);
  }

  /** A sorted list of a, b, c, where a is the lightest: a is last, b and c come first. */
  lemma LightestLast(ps: seq<Plugin>, a: Plugin, b: Plugin, c: Plugin)
    requires SortedByWeight(ps) && multiset(ps) == multiset{a, b, c}
    requires a.weight < b.weight && a.weight < c.weight && b != c
    ensures |ps| == 3 && ps[2] == a && {ps[0], ps[1]} == {b, c}
  {
    PermutationOfThree(ps, a, b, c);
    var k :| 0 <= k < 3 && ps[k] == a;
    assert ps[2].weight <= ps[k].weight;
    var i :| 0 <= i < 3 && ps[i] == b;
    var j :| 0 <= j < 3 && ps[j] == c;
    assert i != 2 && j != 2 && i != j;
  }

  /** A sorted list of x, y, z with strictly decreasing weights is [x, y, z]. */
  lemma DistinctWeightsOrder(ps: seq<Plugin>, x: Plugin, y: Plugin, z: Plugin)
    requires SortedByWeight(ps) && multiset(ps) == multiset{x, y, z}
    requires x.weight > y.weight > z.weight
    ensures ps == [x, y, z]
  {
    PermutationOfThree(ps, x, y, z);
    var i :| 0 <= i < 3 && ps[i] == x;
    var k :| 0 <= k < 3 && ps[k] == z;
    assert ps[0].weight >= ps[i].weight;
    assert ps[2].weight <= ps[k].weight;
    var j :| 0 <= j < 3 && ps[j] == y;
    assert j == 1;
  }

  /** Storing two differently named plugins indexes each under its name. */
  lemma TwoPluginIndex(p: Plugin, q: Plugin)
    requires p.name != q.name
    ensures Index(map[], [p, q]) == map[p.name := p, q.name := q]
  {
    assert [p, q][..1] == [p] && [p][..0] == [];
    assert Index(map[], [p]) == map[p.name := p];
  }

  /** With sections "cache" and "trace" present, the table activates redis and tracer. */
  lemma BothSectionsActivate(table: map<string, seq<string>>)
    requires table == map["cache" := ["redis"], "trace" := ["tracer", "redis"]]
    ensures Discovery.Activated({"cache", "trace"}, table) == {"redis", "tracer"}
  {
    assert "redis" in table["cache"];
    assert "tracer" in table["trace"];
    forall n | n in Discovery.Activated({"cache", "trace"}, table) ensures n in {"redis", "tracer"} {
      var k :| k in table && k in {"cache", "trace"} && n in table[k];
    }
  }
}
