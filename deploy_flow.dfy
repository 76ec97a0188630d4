/**
 * The flow deployer (deploy_flow.py): it creates a process group, adds the
 * processors of a description or a template, wires them, and runs the
 * best-effort start pass, all through the client functions of `NifiApi`.
 *
 * Every deployer method is proved equal to a function of the engine state
 * (`AddStagesFrom`, `ChainFrom`, `StartFrom`, `AddDeclsFrom`, `WireFrom`,
 * and the `Deploy*Spec` functions built from them); the lemmas below state
 * what those functions do to the engine and which requests they send.
 */
module DeployFlow {
  import opened Common
  import opened Engine
  import opened Text
  import opened StageSelector
  import opened NifiApi

  // ---------------------------------------------------------------------
  // The `processors` dictionary: names to ids, in first-insertion order
  // ---------------------------------------------------------------------

  type Registry = seq<(string, Id)>

  function Keys(d: Registry): (ks: seq<string>)
    ensures |ks| == |d| && forall i :: 0 <= i < |d| ==> ks[i] == d[i].0
  {
    seq(|d|, i requires 0 <= i < |d| => d[i].0)
  }

  /** `list(processors.values())`. */
  function Values(d: Registry): (vs: seq<Id>)
    ensures |vs| == |d| && forall i :: 0 <= i < |d| ==> vs[i] == d[i].1
  {
    seq(|d|, i requires 0 <= i < |d| => d[i].1)
  }

  /** `processors[key] = id`: an existing key keeps its position and takes the new id; a new key goes last. */
  function Put(d: Registry, key: string, id: Id): Registry
  {
    if d == [] then [(key, id)]
    else if d[0].0 == key then [(key, id)] + d[1..]
    else [d[0]] + Put(d[1..], key, id)
  }

  /** `processors.get(key)`. */
  function Find(d: Registry, key: string): Option<Id>
  {
    if d == [] then None
    else if d[0].0 == key then Some(d[0].1)
    else Find(d[1..], key)
  }

  /** After `processors[key] = id`, looking up `key` gives `id` and every other key is unaffected. */
  lemma {:induction false} PutThenFind(d: Registry, key: string, id: Id, other: string)
    ensures Find(Put(d, key, id), key) == Some(id)
    ensures other != key ==> Find(Put(d, key, id), other) == Find(d, other)
  {
    if d != [] && d[0].0 != key {
      PutThenFind(d[1..], key, id, other);
      assert Put(d, key, id)[1..] == Put(d[1..], key, id);
    }
  }

  lemma KeysCons(e: (string, Id), d: Registry)
    ensures Keys([e] + d) == [e.0] + Keys(d)
  {
  }

  /** Overwriting an existing key keeps the key order. */
  lemma {:induction false} PutExistingKeys(d: Registry, key: string, id: Id)
    requires key in Keys(d)
    ensures Keys(Put(d, key, id)) == Keys(d)
  {
    assert d == [d[0]] + d[1..];
    KeysCons(d[0], d[1..]);
    if d[0].0 != key {
      PutExistingKeys(d[1..], key, id);
      KeysCons(d[0], Put(d[1..], key, id));
    } else {
      KeysCons((key, id), d[1..]);
    }
  }

  /** A new key is appended at the end. */
  lemma {:induction false} PutNewKey(d: Registry, key: string, id: Id)
    requires key !in Keys(d)
    ensures Put(d, key, id) == d + [(key, id)]
  {
    if d != [] {
      assert Keys(d)[0] == d[0].0;
      assert d == [d[0]] + d[1..];
      KeysCons(d[0], d[1..]);
      PutNewKey(d[1..], key, id);
    }
  }

  /** Overwriting keeps the key order; only a new key is appended, at the end. */
  lemma PutKeys(d: Registry, key: string, id: Id)
    ensures key in Keys(d) ==> Keys(Put(d, key, id)) == Keys(d)
    ensures key !in Keys(d) ==> Put(d, key, id) == d + [(key, id)]
  {
    if key in Keys(d) {
      PutExistingKeys(d, key, id);
    } else {
      PutNewKey(d, key, id);
    }
  }

  /** Every entry after `processors[key] = id` was already there or is the new pair. */
  lemma {:induction false} PutEntries(d: Registry, key: string, id: Id)
    ensures forall i :: 0 <= i < |Put(d, key, id)| ==> Put(d, key, id)[i] in d || Put(d, key, id)[i] == (key, id)
  {
    if d != [] && d[0].0 != key {
      PutEntries(d[1..], key, id);
      assert Put(d, key, id) == [d[0]] + Put(d[1..], key, id);
    }
  }

  // ---------------------------------------------------------------------
  // What a run sends: the log extension and the connections it posts
  // ---------------------------------------------------------------------

  /** `w'` is `w` after more requests: the log only grows and the configuration is fixed. */
  predicate Extends(w: World, w': World)
  {
    |w.log| <= |w'.log| && w'.log[..|w.log|] == w.log && SameEnvironment(w, w')
  }

  /** The requests sent between `w` and `w'`. */
  function Sent(w: World, w': World): seq<Request>
    requires |w.log| <= |w'.log|
  {
    w'.log[|w.log|..]
  }

  lemma ExtendsChain(a: World, b: World, c: World)
    requires Extends(a, b) && Extends(b, c)
    ensures Extends(a, c)
    ensures Sent(a, c) == Sent(a, b) + Sent(b, c)
  {
    assert c.log[..|a.log|] == c.log[..|b.log|][..|a.log|];
  }

  /**
   * Nothing is rolled back between `w` and `w'`: every group, processor and connection of `w` is still
   * there, and so is every object created in between (each id handed out since `w`).
   */
  ghost predicate KeepsCreated(w: World, w': World)
  {
    && w.groups.Keys <= w'.groups.Keys && w.nodes.Keys <= w'.nodes.Keys && w.connections.Keys <= w'.connections.Keys
    && w.nextId <= w'.nextId
    && forall id :: w.nextId <= id < w'.nextId ==> id in w'.groups || id in w'.nodes || id in w'.connections
  }

  lemma KeepsCreatedChain(a: World, b: World, c: World)
    requires KeepsCreated(a, b) && KeepsCreated(b, c)
    ensures KeepsCreated(a, c)
  {
  }

  /** Each creating request keeps what exists and, when accepted, the object it creates. */
  lemma PostProcessGroupKeepsCreated(w: World, parent: GroupRef, name: string)
    ensures KeepsCreated(w, StepPostProcessGroup(w, parent, 0, name).1)
  {
  }

  lemma PostProcessorKeepsCreated(w: World, g: GroupRef, ptype: string, config: Config)
    ensures KeepsCreated(w, StepPostProcessor(w, g, 0, ptype, config).1)
  {
  }

  lemma PostConnectionKeepsCreated(w: World, g: GroupRef, s: Endpoint, d: Endpoint, selected: seq<string>)
    ensures KeepsCreated(w, StepPostConnection(w, g, 0, s, d, selected).1)
  {
    PostConnectionFrame(w, g, 0, s, d, selected);
  }

  lemma ConnectKeepsCreated(w: World, s: Id, t: Id, g: GroupRef, port: string)
    ensures KeepsCreated(w, ConnectSpec(w, s, t, g, port).1)
  {
    var src := StepGetProcessor(w, s);
    if src.0.Ok? {
      var dst := StepGetProcessor(src.1, t);
      if dst.0.Ok? {
        var sel := [ResolveRelationship(src.0.value.relationships, port)];
        PostConnectionKeepsCreated(dst.1, g, Endpoint(s, g), Endpoint(t, g), sel);
      }
    }
  }

  /** A connection request as the triple that matters for wiring. */
  datatype Edge = Edge(group: GroupRef, source: Id, target: Id)

  /** The connections posted by a sequence of requests, in order. */
  function Edges(reqs: seq<Request>): seq<Edge>
  {
    if reqs == [] then []
    else
      var last := reqs[|reqs| - 1];
      Edges(reqs[..|reqs| - 1]) + (if last.PostConnection? then [Edge(last.group, last.source.id, last.destination.id)] else [])
  }

  lemma {:induction false} EdgesAppend(a: seq<Request>, b: seq<Request>)
    ensures Edges(a + b) == Edges(a) + Edges(b)
    decreases |b|
  {
    if b == [] {
      assert a + b == a;
    } else {
      assert (a + b)[..|a + b| - 1] == a + b[..|b| - 1];
      assert (a + b)[|a + b| - 1] == b[|b| - 1];
      EdgesAppend(a, b[..|b| - 1]);
    }
  }

  lemma {:induction false} EdgesOfReads(reqs: seq<Request>)
    requires forall k :: 0 <= k < |reqs| ==> !reqs[k].PostConnection?
    ensures Edges(reqs) == []
    decreases |reqs|
  {
    if reqs != [] {
      EdgesOfReads(reqs[..|reqs| - 1]);
    }
  }

  predicate IsPrefix<T(==)>(a: seq<T>, b: seq<T>)
  {
    |a| <= |b| && b[..|a|] == a
  }

  lemma PrefixCons<T>(e: T, a: seq<T>, b: seq<T>)
    requires IsPrefix(a, b)
    ensures IsPrefix([e] + a, [e] + b)
  {
    assert ([e] + b)[..|[e] + a|] == [e] + b[..|a|];
  }

  /** At most the first element of `[e] + b` is a prefix of it. */
  lemma PrefixOfHead<T>(a: seq<T>, e: T, b: seq<T>)
    requires a == [] || a == [e]
    ensures IsPrefix(a, [e] + b)
  {
    assert ([e] + b)[..|a|] == a;
  }

  /** No request of `reqs` changes a processor (no PUT): nothing was started, stopped or reconfigured. */
  predicate NoPuts(reqs: seq<Request>)
  {
    forall k :: 0 <= k < |reqs| ==> !reqs[k].PutProcessor?
  }

  lemma NoPutsAppend(a: seq<Request>, b: seq<Request>)
    requires NoPuts(a) && NoPuts(b)
    ensures NoPuts(a + b)
  {
    assert forall k :: 0 <= k < |a + b| ==> (a + b)[k] == if k < |a| then a[k] else b[k - |a|];
  }

  /** The edges of the three possible request sequences of one `connect`. */
  lemma ConnectLogEdges(base: seq<Request>, log: seq<Request>, s: Id, t: Id, g: GroupRef, selected: seq<string>)
    requires || log == base + [GetProcessor(s)]
             || log == base + [GetProcessor(s), GetProcessor(t)]
             || log == base + [GetProcessor(s), GetProcessor(t), PostConnection(g, 0, Endpoint(s, g), Endpoint(t, g), selected)]
    ensures |base| <= |log| && log[..|base|] == base
    ensures Edges(log[|base|..]) == (if |log| == |base| + 3 then [Edge(g, s, t)] else [])
    ensures NoPuts(log[|base|..])
  {
    var sent := log[|base|..];
    assert log == base + sent;
    if |sent| == 3 {
      assert sent[..2] == [GetProcessor(s), GetProcessor(t)];
      EdgesOfReads(sent[..2]);
    } else {
      EdgesOfReads(sent);
    }
  }

  /** One `connect` posts at most the one edge it was asked for, and posts it whenever it returns an id. */
  lemma ConnectEdges(w: World, s: Id, t: Id, g: GroupRef, port: string)
    ensures var r := ConnectSpec(w, s, t, g, port);
      && Extends(w, r.1)
      && (Edges(Sent(w, r.1)) == [] || Edges(Sent(w, r.1)) == [Edge(g, s, t)])
      && (r.0.Ok? ==> Edges(Sent(w, r.1)) == [Edge(g, s, t)])
      && NoPuts(Sent(w, r.1))
      && r.1.nodes == w.nodes && r.1.groups == w.groups
      && (r.0.Raised? ==> r.1.connections == w.connections && r.1.nextId == w.nextId)
  {
    var r := ConnectSpec(w, s, t, g, port);
    ConnectIssues(w, s, t, g, port);
    ConnectCreates(w, s, t, g, port);
    ConnectKeepsProcessors(w, s, t, g, port);
    var selected := if s in w.nodes then [ResolveRelationship(w.nodes[s].relationships, port)] else [];
    ConnectLogEdges(w.log, r.1.log, s, t, g, selected);
  }

  // ---------------------------------------------------------------------
  // _create_processors_from_description and the _add_* helpers
  // ---------------------------------------------------------------------

  /** Adding `stages[i..]` to group `pg` one at a time, stopping at the first raise. */
  function AddStagesFrom(w: World, pg: Id, stages: seq<Stage>, i: nat, acc: Registry): (Outcome<Registry>, World)
    decreases |stages| - i
  {
    if i >= |stages| then (Ok(acc), w)
    else
      var r := StepPostProcessor(w, Group(pg), 0, ProcessorType(stages[i].1), ArchetypeConfig(stages[i].1));
      if r.0.Raised? then (Raised(r.0.error), r.1)
      else AddStagesFrom(r.1, pg, stages, i + 1, Put(acc, stages[i].0, r.0.value))
  }

  /** The ids an uninterrupted run of `n` creations starting at counter `first` receives. */
  function Consecutive(first: nat, n: nat): (ids: seq<Id>)
    ensures |ids| == n && forall k :: 0 <= k < n ==> ids[k] == first + k
  {
    seq(n, k requires 0 <= k < n => first + k)
  }

  /** The registry an uninterrupted run produces: each stage's key with the id it received, in stage order. */
  function Registered(stages: seq<Stage>, first: nat): (d: Registry)
    ensures |d| == |stages| && forall k :: 0 <= k < |stages| ==> d[k] == (stages[k].0, first + k)
  {
    seq(|stages|, k requires 0 <= k < |stages| => (stages[k].0, first + k))
  }

  /** One creation request: logged, and on success the new node is the next id, nothing else changing. */
  lemma PostProcessorLogged(w: World, group: GroupRef, ptype: string, config: Config)
    ensures var r := StepPostProcessor(w, group, 0, ptype, config);
      && r.1.log == w.log + [PostProcessor(group, 0, ptype, config)] && SameEnvironment(w, r.1)
      && r.1.connections == w.connections && r.1.groups == w.groups
      && (r.0.Raised? ==> r.1.nodes == w.nodes && r.1.nextId == w.nextId)
      && (r.0.Ok? ==> r.0.value == w.nextId && r.1.nextId == w.nextId + 1 && w.nextId in r.1.nodes
                      && r.1.nodes[w.nextId].group == group && r.1.nodes[w.nextId].ptype == ptype
                      && r.1.nodes[w.nextId].config == config
                      && forall id :: id in w.nodes && id != w.nextId ==> id in r.1.nodes && r.1.nodes[id] == w.nodes[id])
  {
  }

  /**
   * Adding stages sends only creation requests, so no connection and no PUT; it touches no group or
   * connection, and every processor that existed below the id counter is still there unchanged.
   */
  lemma {:induction false} AddStagesSends(w: World, pg: Id, stages: seq<Stage>, i: nat, acc: Registry)
    decreases |stages| - i
    ensures var r := AddStagesFrom(w, pg, stages, i, acc);
      && Extends(w, r.1) && Edges(Sent(w, r.1)) == []
      && (forall k :: 0 <= k < |Sent(w, r.1)| ==> Sent(w, r.1)[k].PostProcessor?)
      && r.1.connections == w.connections && r.1.groups == w.groups && w.nextId <= r.1.nextId
      && (forall id :: id in w.nodes ==> id in r.1.nodes)
      && (forall id :: id in w.nodes && id < w.nextId ==> r.1.nodes[id] == w.nodes[id])
  {
    if i < |stages| {
      var st := stages[i];
      var r1 := StepPostProcessor(w, Group(pg), 0, ProcessorType(st.1), ArchetypeConfig(st.1));
      PostProcessorLogged(w, Group(pg), ProcessorType(st.1), ArchetypeConfig(st.1));
      assert Sent(w, r1.1) == [PostProcessor(Group(pg), 0, ProcessorType(st.1), ArchetypeConfig(st.1))];
      EdgesOfReads(Sent(w, r1.1));
      if r1.0.Ok? {
        var acc1 := Put(acc, st.0, r1.0.value);
        AddStagesSends(r1.1, pg, stages, i + 1, acc1);
        var r := AddStagesFrom(r1.1, pg, stages, i + 1, acc1);
        ExtendsChain(w, r1.1, r.1);
        EdgesAppend(Sent(w, r1.1), Sent(r1.1, r.1));
        assert forall k :: 0 <= k < |Sent(w, r.1)| ==> Sent(w, r.1)[k].PostProcessor? by {
          assert Sent(w, r.1) == Sent(w, r1.1) + Sent(r1.1, r.1);
        }
      }
    } else {
      assert Sent(w, w) == [];
    }
  }

  /**
   * Adding stages with distinct keys without a raise: every stage is registered under its own key, in
   * stage order, with consecutive fresh ids.
   */
  lemma {:induction false} AddStagesRegistry(w: World, pg: Id, stages: seq<Stage>, i: nat, acc: Registry)
    requires i <= |stages|
    requires forall a, b :: i <= a < b < |stages| ==> stages[a].0 != stages[b].0
    requires forall k :: i <= k < |stages| ==> stages[k].0 !in Keys(acc)
    decreases |stages| - i
    ensures var r := AddStagesFrom(w, pg, stages, i, acc);
      r.0.Ok? ==> r.0.value == acc + Registered(stages[i..], w.nextId)
  {
    if i < |stages| {
      var st := stages[i];
      var r1 := StepPostProcessor(w, Group(pg), 0, ProcessorType(st.1), ArchetypeConfig(st.1));
      if r1.0.Ok? {
        assert r1.0.value == w.nextId && r1.1.nextId == w.nextId + 1;
        var acc1 := Put(acc, st.0, w.nextId);
        var r := AddStagesFrom(r1.1, pg, stages, i + 1, acc1);
        assert AddStagesFrom(w, pg, stages, i, acc) == r;
        if r.0.Ok? {
          FreshKeyAppends(acc, stages, i, w.nextId);
          AddStagesRegistry(r1.1, pg, stages, i + 1, acc1);
          assert r.0.value == acc1 + Registered(stages[i + 1..], w.nextId + 1);
          RegisteredCons(acc, stages, i, w.nextId);
        }
      }
    } else {
      assert Registered(stages[i..], w.nextId) == [];
    }
  }

  /** Registering a fresh key appends it, and the later keys stay fresh. */
  lemma FreshKeyAppends(acc: Registry, stages: seq<Stage>, i: nat, id: Id)
    requires i < |stages|
    requires forall a, b :: i <= a < b < |stages| ==> stages[a].0 != stages[b].0
    requires forall k :: i <= k < |stages| ==> stages[k].0 !in Keys(acc)
    ensures Put(acc, stages[i].0, id) == acc + [(stages[i].0, id)]
    ensures forall k :: i + 1 <= k < |stages| ==> stages[k].0 !in Keys(Put(acc, stages[i].0, id))
  {
    PutKeys(acc, stages[i].0, id);
    assert Keys(acc + [(stages[i].0, id)]) == Keys(acc) + [stages[i].0];
  }

  lemma RegisteredCons(acc: Registry, stages: seq<Stage>, i: nat, first: nat)
    requires i < |stages|
    ensures acc + Registered(stages[i..], first) == (acc + [(stages[i].0, first)]) + Registered(stages[i + 1..], first + 1)
  {
    assert Registered(stages[i..], first) == [(stages[i].0, first)] + Registered(stages[i + 1..], first + 1);
  }


  /** Processor `id` of `w` is an instance of archetype `a` created in group `pg`. */
  ghost predicate HoldsStage(w: World, id: Id, pg: Id, a: Archetype)
  {
    && id in w.nodes && w.nodes[id].group == Group(pg)
    && w.nodes[id].ptype == ProcessorType(a) && w.nodes[id].config == ArchetypeConfig(a)
  }

  /** Processors `base`, `base + 1`, ... of `w` hold the stages of `rest`, in order. */
  ghost predicate HoldsStages(w: World, base: Id, pg: Id, rest: seq<Stage>)
    decreases |rest|
  {
    |rest| == 0 || (HoldsStage(w, base, pg, rest[0].1) && HoldsStages(w, base + 1, pg, rest[1..]))
  }

  lemma {:induction false} HoldsStagesAt(w: World, base: Id, pg: Id, rest: seq<Stage>, k: nat)
    requires HoldsStages(w, base, pg, rest) && k < |rest|
    ensures HoldsStage(w, base + k, pg, rest[k].1)
    decreases k
  {
    if k > 0 {
      HoldsStagesAt(w, base + 1, pg, rest[1..], k - 1);
      assert rest[1..][k - 1] == rest[k] && base + 1 + (k - 1) == base + k;
    }
  }

  /** Without a raise, one id is used per stage and the processor with the k-th fresh id is stage i + k's archetype. */
  lemma {:induction false} AddStagesNodes(w: World, pg: Id, stages: seq<Stage>, i: nat, acc: Registry)
    requires i <= |stages|
    decreases |stages| - i
    ensures var r := AddStagesFrom(w, pg, stages, i, acc);
      r.0.Ok? ==>
        && r.1.nextId == w.nextId + (|stages| - i)
        && HoldsStages(r.1, w.nextId, pg, stages[i..])
  {
    if i < |stages| {
      var st := stages[i];
      var r1 := StepPostProcessor(w, Group(pg), 0, ProcessorType(st.1), ArchetypeConfig(st.1));
      PostProcessorLogged(w, Group(pg), ProcessorType(st.1), ArchetypeConfig(st.1));
      if r1.0.Ok? {
        var acc1 := Put(acc, st.0, r1.0.value);
        var r := AddStagesFrom(r1.1, pg, stages, i + 1, acc1);
        assert AddStagesFrom(w, pg, stages, i, acc) == r;
        if r.0.Ok? {
          AddStagesNodes(r1.1, pg, stages, i + 1, acc1);
          AddStagesSends(r1.1, pg, stages, i + 1, acc1);
          assert HoldsStage(r1.1, w.nextId, pg, st.1);
          assert r.1.nodes[w.nextId] == r1.1.nodes[w.nextId];
          assert stages[i..][1..] == stages[i + 1..];
        }
      } else {
        assert AddStagesFrom(w, pg, stages, i, acc).0.Raised?;
      }
    }
  }



  /** Where each optional stage sits in `SelectStages(description)`. */
  lemma StagePositions(description: string)
    ensures var d := Lower(description);
      var stages := SelectStages(description);
      var t := if WantsTransform(d) then 1 else 0;
      var f := if WantsFilter(d) then 1 else 0;
      && |stages| == 2 + t + f
      && stages[0] == ("source", SourceArchetype(d))
      && (t == 1 ==> stages[1] == ("transform", Transformer))
      && (f == 1 ==> stages[1 + t] == ("filter", Filter))
      && stages[1 + t + f] == ("destination", DestinationArchetype(d))
  {
  }

  // ---------------------------------------------------------------------
  // _connect_processors
  // ---------------------------------------------------------------------

  /** Connecting `ids[i]` to `ids[i + 1]` for each remaining i, stopping at the first raise. */
  function ChainFrom(w: World, ids: seq<Id>, g: GroupRef, i: nat): (Option<Error>, World)
    decreases |ids| - i
  {
    if i + 1 >= |ids| then (None, w)
    else
      var c := ConnectSpec(w, ids[i], ids[i + 1], g, "success");
      if c.0.Raised? then (Some(c.0.error), c.1)
      else ChainFrom(c.1, ids, g, i + 1)
  }

  /** The consecutive pairs from position i on, as edges in `g`. */
  function PairsFrom(ids: seq<Id>, g: GroupRef, i: nat): seq<Edge>
    decreases |ids| - i
  {
    if i + 1 >= |ids| then [] else [Edge(g, ids[i], ids[i + 1])] + PairsFrom(ids, g, i + 1)
  }

  /** n ids give n - 1 pairs (none for n <= 1), pair k joining ids[k] to ids[k + 1]. */
  lemma {:induction false} PairsShape(ids: seq<Id>, g: GroupRef, i: nat)
    requires i <= |ids|
    decreases |ids| - i
    ensures |PairsFrom(ids, g, i)| == if |ids| - i <= 1 then 0 else |ids| - i - 1
    ensures forall k :: 0 <= k < |PairsFrom(ids, g, i)| ==> PairsFrom(ids, g, i)[k] == Edge(g, ids[i + k], ids[i + k + 1])
  {
    if i + 1 < |ids| {
      PairsShape(ids, g, i + 1);
    }
  }

  /**
   * The chain posts a prefix of the consecutive pairs, all in `g`, and all of them when nothing raised;
   * it never sends a PUT and, when it raises, leaves the processors as they were.
   */
  lemma {:induction false} ChainEdges(w: World, ids: seq<Id>, g: GroupRef, i: nat)
    decreases |ids| - i
    ensures var r := ChainFrom(w, ids, g, i);
      && Extends(w, r.1)
      && IsPrefix(Edges(Sent(w, r.1)), PairsFrom(ids, g, i))
      && (r.0.None? ==> Edges(Sent(w, r.1)) == PairsFrom(ids, g, i))
      && NoPuts(Sent(w, r.1))
      && r.1.nodes == w.nodes && r.1.groups == w.groups
  {
    if i + 1 < |ids| {
      var e := Edge(g, ids[i], ids[i + 1]);
      var c := ConnectSpec(w, ids[i], ids[i + 1], g, "success");
      ConnectEdges(w, ids[i], ids[i + 1], g, "success");
      assert PairsFrom(ids, g, i) == [e] + PairsFrom(ids, g, i + 1);
      if c.0.Ok? {
        var r := ChainFrom(c.1, ids, g, i + 1);
        assert ChainFrom(w, ids, g, i) == r;
        ChainEdges(c.1, ids, g, i + 1);
        ExtendsChain(w, c.1, r.1);
        EdgesAppend(Sent(w, c.1), Sent(c.1, r.1));
        NoPutsAppend(Sent(w, c.1), Sent(c.1, r.1));
        PrefixCons(e, Edges(Sent(c.1, r.1)), PairsFrom(ids, g, i + 1));
      } else {
        assert ChainFrom(w, ids, g, i) == (Some(c.0.error), c.1);
        PrefixOfHead(Edges(Sent(w, c.1)), e, PairsFrom(ids, g, i + 1));
      }
    } else {
      assert ChainFrom(w, ids, g, i) == (None, w);
      assert Sent(w, w) == [];
    }
  }

  // ---------------------------------------------------------------------
  // _start_flow
  // ---------------------------------------------------------------------

  /** What the start pass reports for one entry: started, or the warning with the error it caught. */
  datatype EntryReport = Started(name: string) | NotStarted(name: string, error: Error)

  /** `start_processor` inside the try block: a raise becomes the entry's warning. */
  function StartOne(w: World, name: string, id: Id): (EntryReport, World)
  {
    var s := SetStateSpec(w, id, Running);
    (if s.0.Ok? then Started(name) else NotStarted(name, s.0.error), s.1)
  }

  /** One iteration of the start pass: auto-terminate "success" first if it is the last entry, then start. */
  function StartEntry(w: World, name: string, id: Id, last: bool): (EntryReport, World)
  {
    if last then
      var t := AutoTerminateSpec(w, id, ["success"]);
      if t.0.Raised? then (NotStarted(name, t.0.error), t.1) else StartOne(t.1, name, id)
    else StartOne(w, name, id)
  }

  /** The start pass over entries i.. of the dictionary; it never raises. */
  function StartFrom(w: World, procs: Registry, i: nat): (seq<EntryReport>, World)
    decreases |procs| - i
  {
    if i >= |procs| then ([], w)
    else
      var s := StartEntry(w, procs[i].0, procs[i].1, i == |procs| - 1);
      var rest := StartFrom(s.1, procs, i + 1);
      ([s.0] + rest.0, rest.1)
  }

  /** The requests of one start attempt: a read and a PUT of that processor only. */
  lemma StartOneEffect(w: World, name: string, id: Id)
    ensures var r := StartOne(w, name, id);
      && Extends(w, r.1) && Edges(Sent(w, r.1)) == []
      && r.1.connections == w.connections && r.1.groups == w.groups && r.1.nextId == w.nextId
      && r.1.nodes.Keys == w.nodes.Keys
      && (forall other :: other in w.nodes && other != id ==> r.1.nodes[other] == w.nodes[other])
      && r.0.name == name
      && (r.0.Started? ==> id in r.1.nodes && r.1.nodes[id].state == Running)
      && (id in w.nodes ==> r.1.nodes[id].relationships == w.nodes[id].relationships)
  {
    var s := SetStateSpec(w, id, Running);
    SetStateIssues(w, id, Running);
    EdgesOfReads(Sent(w, s.1));
  }

  /** Auto-terminating "success" on the last entry: a read and a PUT of that processor only. */
  lemma TerminateEffect(w: World, id: Id)
    ensures var r := AutoTerminateSpec(w, id, ["success"]);
      && Extends(w, r.1) && Edges(Sent(w, r.1)) == []
      && r.1.connections == w.connections && r.1.groups == w.groups && r.1.nextId == w.nextId
      && r.1.nodes.Keys == w.nodes.Keys
      && (forall other :: other in w.nodes && other != id ==> r.1.nodes[other] == w.nodes[other])
      && (r.0.Ok? ==>
            (id in w.nodes && id in r.1.nodes &&
             r.1.nodes[id].relationships == MergeAutoTerminate(w.nodes[id].relationships, ["success"])))
  {
    var t := AutoTerminateSpec(w, id, ["success"]);
    AutoTerminateIssues(w, id, ["success"]);
    EdgesOfReads(Sent(w, t.1));
  }

  /** The requests of one start entry: reads and PUTs of that entry's processor only. */
  lemma StartEntryEffect(w: World, name: string, id: Id, last: bool)
    ensures var r := StartEntry(w, name, id, last);
      && Extends(w, r.1) && Edges(Sent(w, r.1)) == []
      && r.1.connections == w.connections && r.1.groups == w.groups && r.1.nextId == w.nextId
      && r.1.nodes.Keys == w.nodes.Keys
      && (forall other :: other in w.nodes && other != id ==> r.1.nodes[other] == w.nodes[other])
      && r.0.name == name
      && (r.0.Started? ==> id in w.nodes && id in r.1.nodes && r.1.nodes[id].state == Running)
      && (r.0.Started? && last ==>
            r.1.nodes[id].relationships == MergeAutoTerminate(w.nodes[id].relationships, ["success"]))
      && (!last && id in w.nodes ==> r.1.nodes[id].relationships == w.nodes[id].relationships)
  {
    if last {
      var t := AutoTerminateSpec(w, id, ["success"]);
      TerminateEffect(w, id);
      if t.0.Ok? {
        var s := StartOne(t.1, name, id);
        StartOneEffect(t.1, name, id);
        ExtendsChain(w, t.1, s.1);
        EdgesAppend(Sent(w, t.1), Sent(t.1, s.1));
        assert StartEntry(w, name, id, last) == s;
      } else {
        assert StartEntry(w, name, id, last) == (NotStarted(name, t.0.error), t.1);
      }
    } else {
      StartOneEffect(w, name, id);
      SetStateIssues(w, id, Running);
    }
  }

  /**
   * When auto-terminating the last entry raises, that entry is not started: its report carries the
   * auto-terminate error, no processor changed, and no request sent asks for RUNNING.
   */
  lemma StartLastSkippedOnTerminateFailure(w: World, name: string, id: Id)
    requires AutoTerminateSpec(w, id, ["success"]).0.Raised?
    ensures var r := StartEntry(w, name, id, true);
      && r.0 == NotStarted(name, AutoTerminateSpec(w, id, ["success"]).0.error)
      && Extends(w, r.1) && r.1.nodes == w.nodes
      && forall k :: 0 <= k < |Sent(w, r.1)| && Sent(w, r.1)[k].PutProcessor? ==> Sent(w, r.1)[k].patch.state.None?
  {
    AutoTerminateIssues(w, id, ["success"]);
  }

  /** One start entry keeps every processor's group, type and configuration. */
  lemma StartEntryKeepsNodes(w: World, name: string, id: Id, last: bool)
    ensures var r := StartEntry(w, name, id, last);
      && r.1.nodes.Keys == w.nodes.Keys
      && forall n :: n in w.nodes ==>
           && r.1.nodes[n].group == w.nodes[n].group && r.1.nodes[n].ptype == w.nodes[n].ptype
           && r.1.nodes[n].config == w.nodes[n].config
  {
    var r := StartEntry(w, name, id, last);
    StartEntryEffect(w, name, id, last);
    if id in w.nodes {
      var n := w.nodes[id];
      var t := AutoTerminateSpec(w, id, ["success"]);
      var start := if last then t.1 else w;
      if last {
        AutoTerminateIssues(w, id, ["success"]);
        assert t.1.nodes[id].group == n.group && t.1.nodes[id].ptype == n.ptype && t.1.nodes[id].config == n.config;
      }
      var u := SetStateSpec(start, id, Running);
      SetStateIssues(start, id, Running);
      assert !last || t.0.Ok? ==> r.1 == u.1;
      assert last && t.0.Raised? ==> r.1 == t.1;
      assert r.1.nodes[id].group == n.group && r.1.nodes[id].ptype == n.ptype && r.1.nodes[id].config == n.config;
    }
  }

  /**
   * The start pass reports once per entry, in dictionary order, whatever happens; it creates and removes
   * nothing, posts no connection, and leaves every processor not in the dictionary untouched.
   */
  lemma StartFromEffect(w: World, procs: Registry, i: nat)
    requires i <= |procs|
    ensures var r := StartFrom(w, procs, i);
      && |r.0| == |procs| - i && (forall k :: 0 <= k < |r.0| ==> r.0[k].name == procs[i + k].0)
      && Extends(w, r.1) && Edges(Sent(w, r.1)) == []
      && r.1.connections == w.connections && r.1.groups == w.groups && r.1.nextId == w.nextId
      && r.1.nodes.Keys == w.nodes.Keys
      && (forall id :: id in w.nodes && id !in Values(procs[i..]) ==> r.1.nodes[id] == w.nodes[id])
  {
    StartFromReports(w, procs, i);
    StartFromFrame(w, procs, i);
  }

  /** The start pass reports once per entry, in dictionary order. */
  lemma {:induction false} StartFromReports(w: World, procs: Registry, i: nat)
    requires i <= |procs|
    decreases |procs| - i
    ensures var r := StartFrom(w, procs, i);
      |r.0| == |procs| - i && (forall k :: 0 <= k < |r.0| ==> r.0[k].name == procs[i + k].0)
  {
    if i < |procs| {
      var s := StartEntry(w, procs[i].0, procs[i].1, i == |procs| - 1);
      var rest := StartFrom(s.1, procs, i + 1);
      var r := StartFrom(w, procs, i);
      assert r == ([s.0] + rest.0, rest.1);
      StartEntryEffect(w, procs[i].0, procs[i].1, i == |procs| - 1);
      StartFromReports(s.1, procs, i + 1);
      forall k | 0 <= k < |r.0|
        ensures r.0[k].name == procs[i + k].0
      {
        if k > 0 {
          assert r.0[k] == rest.0[k - 1];
        }
      }
    }
  }

  /** The start pass creates and removes nothing, posts no connection, and leaves other processors alone. */
  lemma {:induction false} StartFromFrame(w: World, procs: Registry, i: nat)
    requires i <= |procs|
    decreases |procs| - i
    ensures var r := StartFrom(w, procs, i);
      && Extends(w, r.1) && Edges(Sent(w, r.1)) == []
      && r.1.connections == w.connections && r.1.groups == w.groups && r.1.nextId == w.nextId
      && r.1.nodes.Keys == w.nodes.Keys
      && (forall id :: id in w.nodes && id !in Values(procs[i..]) ==> r.1.nodes[id] == w.nodes[id])
  {
    if i < |procs| {
      var s := StartEntry(w, procs[i].0, procs[i].1, i == |procs| - 1);
      var rest := StartFrom(s.1, procs, i + 1);
      assert StartFrom(w, procs, i) == ([s.0] + rest.0, rest.1);
      StartEntryEffect(w, procs[i].0, procs[i].1, i == |procs| - 1);
      StartFromFrame(s.1, procs, i + 1);
      ExtendsChain(w, s.1, rest.1);
      EdgesAppend(Sent(w, s.1), Sent(s.1, rest.1));
      ValuesDrop(procs, i);
    } else {
      assert StartFrom(w, procs, i) == ([], w);
      assert Sent(w, w) == [];
    }
  }

  lemma ConsAssoc<T>(a: seq<T>, x: T, b: seq<T>)
    ensures a + [x] + b == a + ([x] + b)
  {
  }

  lemma ValuesDrop(procs: Registry, i: nat)
    requires i < |procs|
    ensures Values(procs[i..]) == [procs[i].1] + Values(procs[i + 1..])
  {
    assert Values(procs[i..])[1..] == Values(procs[i + 1..]);
  }

  /** The start pass keeps every processor's group, type and configuration. */
  lemma {:induction false} StartFromNodes(w: World, procs: Registry, i: nat)
    requires i <= |procs|
    decreases |procs| - i
    ensures var r := StartFrom(w, procs, i);
      && r.1.nodes.Keys == w.nodes.Keys
      && forall id :: id in w.nodes ==>
           && r.1.nodes[id].group == w.nodes[id].group && r.1.nodes[id].ptype == w.nodes[id].ptype
           && r.1.nodes[id].config == w.nodes[id].config
  {
    StartFromEffect(w, procs, i);
    if i < |procs| {
      var s := StartEntry(w, procs[i].0, procs[i].1, i == |procs| - 1);
      StartEntryKeepsNodes(w, procs[i].0, procs[i].1, i == |procs| - 1);
      StartFromNodes(s.1, procs, i + 1);
    }
  }

  /** With distinct ids, an entry's id does not occur again later in the dictionary. */
  lemma DistinctIdsTail(procs: Registry, i: nat)
    requires i < |procs|
    requires forall a, b :: 0 <= a < b < |procs| ==> procs[a].1 != procs[b].1
    ensures procs[i].1 !in Values(procs[i + 1..])
  {
    var later := Values(procs[i + 1..]);
    forall j | 0 <= j < |later|
      ensures later[j] != procs[i].1
    {
      assert later[j] == procs[i + 1 + j].1;
    }
  }

  /** A processor no entry from i on names comes out of the start pass unchanged. */
  lemma StartFromUntouched(w: World, procs: Registry, i: nat, id: Id)
    requires i <= |procs|
    requires id in w.nodes && id !in Values(procs[i..])
    ensures var r := StartFrom(w, procs, i); id in r.1.nodes && r.1.nodes[id] == w.nodes[id]
  {
    StartFromEffect(w, procs, i);
  }

  /** With distinct ids, every entry reported as started is RUNNING at the end of the pass. */
  lemma {:induction false} StartFromRunning(w: World, procs: Registry, i: nat)
    requires i <= |procs|
    requires forall a, b :: 0 <= a < b < |procs| ==> procs[a].1 != procs[b].1
    decreases |procs| - i
    ensures var r := StartFrom(w, procs, i);
      && |r.0| == |procs| - i
      && (forall k :: i <= k < |procs| && r.0[k - i].Started? ==>
            procs[k].1 in r.1.nodes && r.1.nodes[procs[k].1].state == Running)
  {
    if i < |procs| {
      var id, last := procs[i].1, i == |procs| - 1;
      var s := StartEntry(w, procs[i].0, id, last);
      var rest := StartFrom(s.1, procs, i + 1);
      var r := StartFrom(w, procs, i);
      assert r == ([s.0] + rest.0, rest.1);
      StartFromRunning(s.1, procs, i + 1);
      forall k | i <= k < |procs| && r.0[k - i].Started?
        ensures procs[k].1 in r.1.nodes && r.1.nodes[procs[k].1].state == Running
      {
        if k > i {
          assert r.0[k - i] == rest.0[k - (i + 1)];
        } else {
          StartEntryEffect(w, procs[i].0, id, last);
          DistinctIdsTail(procs, i);
          StartFromUntouched(s.1, procs, i + 1, id);
        }
      }
    }
  }

  /** With distinct ids, every entry but the last keeps its relationships through the start pass. */
  lemma {:induction false} StartFromKeepsRelationships(w: World, procs: Registry, i: nat)
    requires i <= |procs|
    requires forall a, b :: 0 <= a < b < |procs| ==> procs[a].1 != procs[b].1
    decreases |procs| - i
    ensures var r := StartFrom(w, procs, i);
      && r.1.nodes.Keys == w.nodes.Keys
      && forall k :: i <= k < |procs| - 1 && procs[k].1 in w.nodes ==>
           r.1.nodes[procs[k].1].relationships == w.nodes[procs[k].1].relationships
  {
    StartFromFrame(w, procs, i);
    if i < |procs| {
      var id, isLast := procs[i].1, i == |procs| - 1;
      var s := StartEntry(w, procs[i].0, id, isLast);
      var rest := StartFrom(s.1, procs, i + 1);
      var r := StartFrom(w, procs, i);
      assert r == ([s.0] + rest.0, rest.1);
      StartEntryEffect(w, procs[i].0, id, isLast);
      StartFromKeepsRelationships(s.1, procs, i + 1);
      forall k | i <= k < |procs| - 1 && procs[k].1 in w.nodes
        ensures r.1.nodes[procs[k].1].relationships == w.nodes[procs[k].1].relationships
      {
        if k == i {
          DistinctIdsTail(procs, i);
          StartFromUntouched(s.1, procs, i + 1, id);
        } else {
          assert procs[k].1 != id;
        }
      }
    }
  }

  /**
   * With distinct ids, the last entry, when reported as started, has had "success" auto-terminated on
   * top of its own relationships.
   */
  lemma {:induction false} StartFromTerminatesLast(w: World, procs: Registry, i: nat)
    requires i < |procs|
    requires forall a, b :: 0 <= a < b < |procs| ==> procs[a].1 != procs[b].1
    decreases |procs| - i
    ensures var r := StartFrom(w, procs, i);
      && |r.0| == |procs| - i && r.1.nodes.Keys == w.nodes.Keys
      && (r.0[|r.0| - 1].Started? ==>
            var last := procs[|procs| - 1].1;
            last in w.nodes &&
            r.1.nodes[last].relationships == MergeAutoTerminate(w.nodes[last].relationships, ["success"]))
  {
    var id, isLast := procs[i].1, i == |procs| - 1;
    var s := StartEntry(w, procs[i].0, id, isLast);
    var rest := StartFrom(s.1, procs, i + 1);
    var r := StartFrom(w, procs, i);
    assert r == ([s.0] + rest.0, rest.1);
    StartEntryEffect(w, procs[i].0, id, isLast);
    StartFromFrame(s.1, procs, i + 1);
    if isLast {
      assert rest == ([], s.1);
    } else {
      StartFromTerminatesLast(s.1, procs, i + 1);
      var last := procs[|procs| - 1].1;
      assert last != id;
      assert r.0[|r.0| - 1] == rest.0[|rest.0| - 1];
    }
  }

  /** Every PUT of `reqs` targets one of `ids`. */
  predicate PutsWithin(reqs: seq<Request>, ids: seq<Id>)
  {
    forall k :: 0 <= k < |reqs| && reqs[k].PutProcessor? ==> reqs[k].id in ids
  }

  /** Every PUT of `reqs` that carries relationships targets processor `id`. */
  predicate TerminatesOnly(reqs: seq<Request>, id: Id)
  {
    forall k :: 0 <= k < |reqs| && reqs[k].PutProcessor? && reqs[k].patch.relationships.Some? ==> reqs[k].id == id
  }

  /** No PUT of `reqs` carries relationships. */
  predicate KeepsRelationships(reqs: seq<Request>)
  {
    forall k :: 0 <= k < |reqs| && reqs[k].PutProcessor? ==> reqs[k].patch.relationships.None?
  }

  lemma RequestsAppend(a: seq<Request>, b: seq<Request>, ids: seq<Id>, id: Id)
    ensures PutsWithin(a, ids) && PutsWithin(b, ids) ==> PutsWithin(a + b, ids)
    ensures TerminatesOnly(a, id) && TerminatesOnly(b, id) ==> TerminatesOnly(a + b, id)
    ensures KeepsRelationships(a) && KeepsRelationships(b) ==> KeepsRelationships(a + b)
  {
    assert forall k :: 0 <= k < |a + b| ==> (a + b)[k] == if k < |a| then a[k] else b[k - |a|];
  }

  /** One start attempt: the read, then possibly a PUT of that processor which carries no relationships. */
  lemma StartOneRequests(w: World, name: string, id: Id)
    ensures var r := StartOne(w, name, id);
      && Extends(w, r.1) && 1 <= |Sent(w, r.1)| <= 2 && Sent(w, r.1)[0] == GetProcessor(id)
      && PutsWithin(Sent(w, r.1), [id]) && KeepsRelationships(Sent(w, r.1))
  {
    var cur := StepGetProcessor(w, id);
    GetProcessorFrame(w, id);
    if cur.0.Ok? {
      var patch := Patch(Some(id), Some(Running), None, None);
      PutProcessorFrame(cur.1, id, cur.0.value.revision, patch);
      var r := StepPutProcessor(cur.1, id, cur.0.value.revision, patch);
      assert StartOne(w, name, id).1 == r.1;
      assert Sent(w, r.1) == [GetProcessor(id), PutProcessor(id, cur.0.value.revision, patch)];
    } else {
      assert StartOne(w, name, id).1 == cur.1;
      assert Sent(w, cur.1) == [GetProcessor(id)];
    }
  }

  /** Auto-terminating on the last entry: the read, then possibly a PUT of that processor. */
  lemma TerminateRequests(w: World, id: Id)
    ensures var r := AutoTerminateSpec(w, id, ["success"]);
      && Extends(w, r.1) && 1 <= |Sent(w, r.1)| <= 2 && Sent(w, r.1)[0] == GetProcessor(id)
      && PutsWithin(Sent(w, r.1), [id])
  {
    var cur := StepGetProcessor(w, id);
    GetProcessorFrame(w, id);
    if cur.0.Ok? {
      var n := cur.0.value;
      var patch := Patch(Some(id), None, Some(n.config), Some(MergeAutoTerminate(n.relationships, ["success"])));
      PutProcessorFrame(cur.1, id, n.revision, patch);
      var r := StepPutProcessor(cur.1, id, n.revision, patch);
      assert AutoTerminateSpec(w, id, ["success"]).1 == r.1;
      assert Sent(w, r.1) == [GetProcessor(id), PutProcessor(id, n.revision, patch)];
    } else {
      assert AutoTerminateSpec(w, id, ["success"]).1 == cur.1;
      assert Sent(w, cur.1) == [GetProcessor(id)];
    }
  }

  /**
   * One start entry reads its processor first and sends PUTs to that processor only; unless it is the
   * last entry, none of its PUTs carries relationships.
   */
  lemma StartEntryRequests(w: World, name: string, id: Id, last: bool)
    ensures var r := StartEntry(w, name, id, last);
      && Extends(w, r.1) && |Sent(w, r.1)| >= 1 && Sent(w, r.1)[0] == GetProcessor(id)
      && PutsWithin(Sent(w, r.1), [id])
      && (!last ==> KeepsRelationships(Sent(w, r.1)))
  {
    if last {
      var t := AutoTerminateSpec(w, id, ["success"]);
      TerminateRequests(w, id);
      if t.0.Ok? {
        var s := StartOne(t.1, name, id);
        StartOneRequests(t.1, name, id);
        ExtendsChain(w, t.1, s.1);
        RequestsAppend(Sent(w, t.1), Sent(t.1, s.1), [id], id);
        assert StartEntry(w, name, id, last) == s;
      } else {
        assert StartEntry(w, name, id, last) == (NotStarted(name, t.0.error), t.1);
      }
    } else {
      StartOneRequests(w, name, id);
    }
  }

  /** The requests of entry i, seen from the whole pass: its PUTs are to an entry, and to the last one if they carry relationships. */
  lemma EntryRequestsInPass(a: seq<Request>, procs: Registry, i: nat)
    requires i < |procs|
    requires PutsWithin(a, [procs[i].1])
    requires i != |procs| - 1 ==> KeepsRelationships(a)
    ensures PutsWithin(a, Values(procs[i..]))
    ensures TerminatesOnly(a, procs[|procs| - 1].1)
  {
    ValuesDrop(procs, i);
  }

  /**
   * The start pass reads the processor of every entry, whatever happened to the earlier ones; it sends
   * PUTs only to processors of the dictionary, and only those to the last entry carry relationships.
   */
  lemma {:induction false} StartFromAttempts(w: World, procs: Registry, i: nat)
    requires 0 < |procs| && i <= |procs|
    decreases |procs| - i
    ensures var r := StartFrom(w, procs, i);
      && Extends(w, r.1)
      && (forall k :: i <= k < |procs| ==> GetProcessor(procs[k].1) in Sent(w, r.1))
      && PutsWithin(Sent(w, r.1), Values(procs[i..]))
      && TerminatesOnly(Sent(w, r.1), procs[|procs| - 1].1)
  {
    if i < |procs| {
      var s := StartEntry(w, procs[i].0, procs[i].1, i == |procs| - 1);
      var rest := StartFrom(s.1, procs, i + 1);
      assert StartFrom(w, procs, i) == ([s.0] + rest.0, rest.1);
      StartEntryRequests(w, procs[i].0, procs[i].1, i == |procs| - 1);
      StartFromAttempts(s.1, procs, i + 1);
      ExtendsChain(w, s.1, rest.1);
      var a, b := Sent(w, s.1), Sent(s.1, rest.1);
      EntryRequestsInPass(a, procs, i);
      ValuesDrop(procs, i);
      assert PutsWithin(b, Values(procs[i..]));
      RequestsAppend(a, b, Values(procs[i..]), procs[|procs| - 1].1);
      assert (a + b)[0] == GetProcessor(procs[i].1);
    } else {
      assert StartFrom(w, procs, i) == ([], w);
      assert Sent(w, w) == [];
    }
  }

  // ---------------------------------------------------------------------
  // deploy_simple_flow
  // ---------------------------------------------------------------------

  /**
   * `deploy_simple_flow` once the stages are chosen: create the group under root, add the stages, chain
   * them, run the start pass.  Any raise before the start pass makes the result false; the start pass
   * cannot make it false.
   */
  function DeployStagesSpec(w: World, name: string, stages: seq<Stage>): (bool, World)
  {
    var pg := StepPostProcessGroup(w, Root, 0, name);
    if pg.0.Raised? then (false, pg.1)
    else
      var procs := AddStagesFrom(pg.1, pg.0.value, stages, 0, []);
      if procs.0.Raised? then (false, procs.1)
      else
        var chain := ChainFrom(procs.1, Values(procs.0.value), Group(pg.0.value), 0);
        if chain.0.Some? then (false, chain.1)
        else (true, StartFrom(chain.1, procs.0.value, 0).1)
  }

  /** Creating a process group sends that one request and adds at most that one group. */
  lemma PostProcessGroupLogged(w: World, name: string)
    ensures var r := StepPostProcessGroup(w, Root, 0, name);
      && Extends(w, r.1) && Sent(w, r.1) == [PostProcessGroup(Root, 0, name)]
      && Edges(Sent(w, r.1)) == [] && NoPuts(Sent(w, r.1))
      && r.1.nodes == w.nodes && r.1.connections == w.connections
      && (r.0.Raised? ==> r.1.groups == w.groups && r.1.nextId == w.nextId)
      && (r.0.Ok? ==> r.0.value == w.nextId && r.1.nextId == w.nextId + 1
                      && r.1.groups == w.groups[w.nextId := ProcessGroup(name, Root)])
  {
    var r := StepPostProcessGroup(w, Root, 0, name);
    assert Sent(w, r.1) == [PostProcessGroup(Root, 0, name)];
    EdgesOfReads(Sent(w, r.1));
  }

  lemma RegisteredValues(stages: seq<Stage>, first: nat)
    ensures Values(Registered(stages, first)) == Consecutive(first, |stages|)
  {
  }

  /**
   * The stage keys of a description are distinct (they are ranked strictly increasing), so the
   * deployment lemmas below apply to every description.
   */
  lemma StageKeysDistinct(description: string)
    ensures var stages := SelectStages(description);
      forall a, b :: 0 <= a < b < |stages| ==> stages[a].0 != stages[b].0
  {
  }

  /** Adding stages keeps what exists and every processor it creates. */
  lemma {:induction false} AddStagesKeepsCreated(w: World, pg: Id, stages: seq<Stage>, i: nat, acc: Registry)
    decreases |stages| - i
    ensures KeepsCreated(w, AddStagesFrom(w, pg, stages, i, acc).1)
  {
    if i < |stages| {
      var st := stages[i];
      var r1 := StepPostProcessor(w, Group(pg), 0, ProcessorType(st.1), ArchetypeConfig(st.1));
      PostProcessorKeepsCreated(w, Group(pg), ProcessorType(st.1), ArchetypeConfig(st.1));
      if r1.0.Ok? {
        AddStagesKeepsCreated(r1.1, pg, stages, i + 1, Put(acc, st.0, r1.0.value));
        KeepsCreatedChain(w, r1.1, AddStagesFrom(r1.1, pg, stages, i + 1, Put(acc, st.0, r1.0.value)).1);
      }
    }
  }

  /** The chain keeps what exists and every connection it creates. */
  lemma {:induction false} ChainKeepsCreated(w: World, ids: seq<Id>, g: GroupRef, i: nat)
    decreases |ids| - i
    ensures KeepsCreated(w, ChainFrom(w, ids, g, i).1)
  {
    if i + 1 < |ids| {
      var c := ConnectSpec(w, ids[i], ids[i + 1], g, "success");
      ConnectKeepsCreated(w, ids[i], ids[i + 1], g, "success");
      if c.0.Ok? {
        ChainKeepsCreated(c.1, ids, g, i + 1);
        KeepsCreatedChain(w, c.1, ChainFrom(c.1, ids, g, i + 1).1);
      }
    }
  }

  /** The start pass creates and removes nothing. */
  lemma StartKeepsCreated(w: World, procs: Registry)
    ensures KeepsCreated(w, StartFrom(w, procs, 0).1)
  {
    StartFromEffect(w, procs, 0);
  }

  /** The template adding loop keeps what exists and every processor it creates. */
  lemma {:induction false} AddDeclsKeepsCreated(w: World, pg: Id, decls: seq<ProcessorDecl>, i: nat, acc: Registry)
    decreases |decls| - i
    ensures KeepsCreated(w, AddDeclsFrom(w, pg, decls, i, acc).1)
  {
    if i < |decls| && decls[i].ptype.Some? {
      var p := decls[i];
      var r1 := StepPostProcessor(w, Group(pg), 0, p.ptype.value, DeclConfig(p));
      PostProcessorKeepsCreated(w, Group(pg), p.ptype.value, DeclConfig(p));
      if r1.0.Ok? && p.name.Some? {
        AddDeclsKeepsCreated(r1.1, pg, decls, i + 1, Put(acc, p.name.value, r1.0.value));
        KeepsCreatedChain(w, r1.1, AddDeclsFrom(r1.1, pg, decls, i + 1, Put(acc, p.name.value, r1.0.value)).1);
      }
    }
  }

  /** The template wiring loop keeps what exists and every connection it creates. */
  lemma {:induction false} WireKeepsCreated(w: World, reg: Registry, conns: seq<ConnectionDecl>, g: GroupRef, i: nat)
    decreases |conns| - i
    ensures KeepsCreated(w, WireFrom(w, reg, conns, g, i).1)
  {
    if i < |conns| && conns[i].source.Some? && conns[i].target.Some? {
      var ends := Resolve(reg, conns[i]);
      if ends.None? {
        WireKeepsCreated(w, reg, conns, g, i + 1);
      } else {
        var c := ConnectSpec(w, ends.value.0, ends.value.1, g, "success");
        ConnectKeepsCreated(w, ends.value.0, ends.value.1, g, "success");
        if c.0.Ok? {
          WireKeepsCreated(c.1, reg, conns, g, i + 1);
          KeepsCreatedChain(w, c.1, WireFrom(c.1, reg, conns, g, i + 1).1);
        }
      }
    }
  }

  /** A simple-flow deployment, failed or not, leaves in place everything that existed and everything it created. */
  lemma DeployStagesKeepsCreated(w: World, name: string, stages: seq<Stage>)
    ensures KeepsCreated(w, DeployStagesSpec(w, name, stages).1)
  {
    var pg := StepPostProcessGroup(w, Root, 0, name);
    PostProcessGroupKeepsCreated(w, Root, name);
    if pg.0.Ok? {
      var procs := AddStagesFrom(pg.1, pg.0.value, stages, 0, []);
      AddStagesKeepsCreated(pg.1, pg.0.value, stages, 0, []);
      KeepsCreatedChain(w, pg.1, procs.1);
      if procs.0.Ok? {
        var chain := ChainFrom(procs.1, Values(procs.0.value), Group(pg.0.value), 0);
        ChainKeepsCreated(procs.1, Values(procs.0.value), Group(pg.0.value), 0);
        KeepsCreatedChain(w, procs.1, chain.1);
        if chain.0.None? {
          StartKeepsCreated(chain.1, procs.0.value);
          KeepsCreatedChain(w, chain.1, StartFrom(chain.1, procs.0.value, 0).1);
        }
      }
    }
  }

  /** A template deployment, failed or not, leaves in place everything that existed and everything it created. */
  lemma TemplateKeepsCreated(w: World, t: Template, flowName: string, inGroup: bool)
    ensures KeepsCreated(w, TemplateSpec(w, t, flowName, inGroup).1)
  {
    var pg := StepPostProcessGroup(w, Root, 0, flowName);
    PostProcessGroupKeepsCreated(w, Root, flowName);
    if pg.0.Ok? {
      var add := AddDeclsFrom(pg.1, pg.0.value, Decls(t), 0, []);
      AddDeclsKeepsCreated(pg.1, pg.0.value, Decls(t), 0, []);
      KeepsCreatedChain(w, pg.1, add.1);
      var b := TemplateBuild(w, t, flowName);
      assert b.1 == add.1;
      if b.0.Ok? {
        var reg := b.0.value.1;
        var g := if inGroup then Group(pg.0.value) else Root;
        var wire := WireFrom(b.1, reg, Conns(t), g, 0);
        WireKeepsCreated(b.1, reg, Conns(t), g, 0);
        KeepsCreatedChain(w, add.1, wire.1);
        if wire.0.None? {
          StartKeepsCreated(wire.1, reg);
          KeepsCreatedChain(w, wire.1, StartFrom(wire.1, reg, 0).1);
        }
      }
    }
  }

  /**
   * A deployment that fails starts nothing: no PUT is sent, since every raise happens before the start
   * pass.  Nothing is rolled back: the partial graph (the group, the processors and the connections
   * created before the raise) stays in place.
   */
  lemma DeployStagesFailureStartsNothing(w: World, name: string, stages: seq<Stage>)
    ensures var r := DeployStagesSpec(w, name, stages);
      && Extends(w, r.1)
      && (!r.0 ==> NoPuts(Sent(w, r.1)))
      && (r.0 ==> r.1.groups == w.groups[w.nextId := ProcessGroup(name, Root)])
      && (r.1.groups == w.groups || r.1.groups == w.groups[w.nextId := ProcessGroup(name, Root)])
      && (forall id :: id in w.nodes ==> id in r.1.nodes)
      && KeepsCreated(w, r.1)
  {
    DeployStagesKeepsCreated(w, name, stages);
    var pg := StepPostProcessGroup(w, Root, 0, name);
    PostProcessGroupLogged(w, name);
    if pg.0.Ok? {
      var procs := AddStagesFrom(pg.1, pg.0.value, stages, 0, []);
      AddStagesSends(pg.1, pg.0.value, stages, 0, []);
      ExtendsChain(w, pg.1, procs.1);
      assert NoPuts(Sent(pg.1, procs.1));
      NoPutsAppend(Sent(w, pg.1), Sent(pg.1, procs.1));
      if procs.0.Ok? {
        var chain := ChainFrom(procs.1, Values(procs.0.value), Group(pg.0.value), 0);
        ChainEdges(procs.1, Values(procs.0.value), Group(pg.0.value), 0);
        ExtendsChain(w, procs.1, chain.1);
        NoPutsAppend(Sent(w, procs.1), Sent(procs.1, chain.1));
        if chain.0.None? {
          StartFromEffect(chain.1, procs.0.value, 0);
          ExtendsChain(w, chain.1, StartFrom(chain.1, procs.0.value, 0).1);
        }
      }
    }
  }

  /**
   * A deployment of stages with distinct keys that succeeds has posted exactly the chain of connections
   * between the new processors, whose ids follow the new group's, in stage order, in that group.
   */
  lemma DeployStagesWiresChain(w: World, name: string, stages: seq<Stage>)
    requires forall a, b :: 0 <= a < b < |stages| ==> stages[a].0 != stages[b].0
    ensures var r := DeployStagesSpec(w, name, stages);
      && Extends(w, r.1)
      && (r.0 ==> Edges(Sent(w, r.1)) == PairsFrom(Consecutive(w.nextId + 1, |stages|), Group(w.nextId), 0))
  {
    DeployStagesFailureStartsNothing(w, name, stages);
    var pg := StepPostProcessGroup(w, Root, 0, name);
    PostProcessGroupLogged(w, name);
    if pg.0.Ok? {
      var procs := AddStagesFrom(pg.1, pg.0.value, stages, 0, []);
      if procs.0.Ok? {
        var ids := Values(procs.0.value);
        assert ids == Consecutive(w.nextId + 1, |stages|) by {
          AddStagesRegistry(pg.1, pg.0.value, stages, 0, []);
          assert stages[0..] == stages;
          assert procs.0.value == Registered(stages, w.nextId + 1);
          RegisteredValues(stages, w.nextId + 1);
        }
        var chain := ChainFrom(procs.1, ids, Group(pg.0.value), 0);
        if chain.0.None? {
          var fin := StartFrom(chain.1, procs.0.value, 0).1;
          assert DeployStagesSpec(w, name, stages) == (true, fin);
          AddStagesSends(pg.1, pg.0.value, stages, 0, []);
          ChainEdges(procs.1, ids, Group(pg.0.value), 0);
          StartFromEffect(chain.1, procs.0.value, 0);
          SentEdgesOfParts(w, pg.1, procs.1, chain.1, fin);
        }
      }
    }
  }

  /** The edges sent across four consecutive phases are those of each phase, in order. */
  lemma SentEdgesOfParts(a: World, b: World, c: World, d: World, e: World)
    requires Extends(a, b) && Extends(b, c) && Extends(c, d) && Extends(d, e)
    ensures Extends(a, e)
    ensures Edges(Sent(a, e)) == Edges(Sent(a, b)) + Edges(Sent(b, c)) + Edges(Sent(c, d)) + Edges(Sent(d, e))
  {
    ExtendsChain(a, b, c);
    ExtendsChain(a, c, d);
    ExtendsChain(a, d, e);
    EdgesAppend(Sent(a, b), Sent(b, c));
    EdgesAppend(Sent(a, c), Sent(c, d));
    EdgesAppend(Sent(a, d), Sent(d, e));
  }

  /** Processor `id` of `w` exists, lives in group `pg` and has archetype `a`'s processor type. */
  ghost predicate ShowsStage(w: World, id: Id, pg: Id, a: Archetype)
  {
    id in w.nodes && w.nodes[id].group == Group(pg) && w.nodes[id].ptype == ProcessorType(a)
  }

  /** Processors `base`, `base + 1`, ... of `w` show the stages of `rest`, in order. */
  ghost predicate ShowsStages(w: World, base: Id, pg: Id, rest: seq<Stage>)
    decreases |rest|
  {
    |rest| == 0 || (ShowsStage(w, base, pg, rest[0].1) && ShowsStages(w, base + 1, pg, rest[1..]))
  }

  /** The k-th of a run of processors showing stages shows the k-th stage. */
  lemma {:induction false} ShowsStagesAt(w: World, base: Id, pg: Id, rest: seq<Stage>, k: nat)
    requires ShowsStages(w, base, pg, rest) && k < |rest|
    ensures ShowsStage(w, base + k, pg, rest[k].1)
    decreases k
  {
    if k > 0 {
      ShowsStagesAt(w, base + 1, pg, rest[1..], k - 1);
      assert rest[1..][k - 1] == rest[k] && base + 1 + (k - 1) == base + k;
    }
  }

  /** Processors that keep their group and type through later requests still show the stages they were created for. */
  lemma {:induction false} StagesSurvive(a: World, b: World, base: Id, pg: Id, rest: seq<Stage>)
    requires HoldsStages(a, base, pg, rest)
    requires b.nodes.Keys == a.nodes.Keys
    requires forall id :: id in a.nodes ==> b.nodes[id].group == a.nodes[id].group && b.nodes[id].ptype == a.nodes[id].ptype
    ensures ShowsStages(b, base, pg, rest)
    decreases |rest|
  {
    if |rest| > 0 {
      assert base in a.nodes;
      StagesSurvive(a, b, base + 1, pg, rest[1..]);
    }
  }

  /** Wiring and the start pass keep every created processor's group and type. */
  lemma StagesSurviveWiringAndStart(w: World, procs: Registry, base: Id, pg: Id, stages: seq<Stage>, fin: World)
    requires HoldsStages(w, base, pg, stages)
    requires fin == StartFrom(ChainFrom(w, Values(procs), Group(pg), 0).1, procs, 0).1
    ensures ShowsStages(fin, base, pg, stages)
  {
    var chain := ChainFrom(w, Values(procs), Group(pg), 0);
    ChainEdges(w, Values(procs), Group(pg), 0);
    StartFromNodes(chain.1, procs, 0);
    StagesSurvive(w, fin, base, pg, stages);
  }

  /** The stages added from `w` on are still there, in order, after wiring and the start pass. */
  lemma AddedStagesSurvive(w: World, g: Id, stages: seq<Stage>, fin: World)
    requires AddStagesFrom(w, g, stages, 0, []).0.Ok?
    requires var procs := AddStagesFrom(w, g, stages, 0, []);
      fin == StartFrom(ChainFrom(procs.1, Values(procs.0.value), Group(g), 0).1, procs.0.value, 0).1
    ensures ShowsStages(fin, w.nextId, g, stages)
  {
    var procs := AddStagesFrom(w, g, stages, 0, []);
    AddStagesNodes(w, g, stages, 0, []);
    assert stages[0..] == stages;
    StagesSurviveWiringAndStart(procs.1, procs.0.value, w.nextId, g, stages, fin);
  }

  /**
   * A deployment of stages that succeeds has created one processor per stage, with consecutive ids
   * right after the new group's, each of its stage's type and in the new group (`ShowsStagesAt`
   * gives the k-th of them).
   */
  lemma DeployStagesCreatesProcessors(w: World, name: string, stages: seq<Stage>)
    ensures DeployStagesSpec(w, name, stages).0 ==>
      ShowsStages(DeployStagesSpec(w, name, stages).1, w.nextId + 1, w.nextId, stages)
  {
    var d := DeployStagesSpec(w, name, stages);
    if d.0 {
      var pg := StepPostProcessGroup(w, Root, 0, name);
      assert pg.0.Ok?;
      assert pg.0.value == w.nextId && pg.1.nextId == w.nextId + 1;
      var procs := AddStagesFrom(pg.1, w.nextId, stages, 0, []);
      assert procs.0.Ok?;
      var chain := ChainFrom(procs.1, Values(procs.0.value), Group(w.nextId), 0);
      var fin := StartFrom(chain.1, procs.0.value, 0).1;
      assert d == (true, fin);
      AddedStagesSurvive(pg.1, w.nextId, stages, fin);
    }
  }

  // ---------------------------------------------------------------------
  // deploy_from_template
  // ---------------------------------------------------------------------

  /** One entry of a template's "processors" list; a missing key is None. */
  datatype ProcessorDecl = ProcessorDecl(name: Option<string>, ptype: Option<string>, config: Option<Config>)

  /** One entry of a template's "connections" list, by processor name. */
  datatype ConnectionDecl = ConnectionDecl(source: Option<string>, target: Option<string>)

  /** A template: its "processors" and "connections" lists, either of which may be absent. */
  datatype Template = Template(processors: Option<seq<ProcessorDecl>>, connections: Option<seq<ConnectionDecl>>)

  /** `proc_config.get('config', {})`: an empty configuration. */
  const EmptyConfig := Config([], None, [])

  function Decls(t: Template): seq<ProcessorDecl>
  {
    if t.processors.Some? then t.processors.value else []
  }

  function Conns(t: Template): seq<ConnectionDecl>
  {
    if t.connections.Some? then t.connections.value else []
  }

  function DeclConfig(p: ProcessorDecl): Config
  {
    if p.config.Some? then p.config.value else EmptyConfig
  }

  /**
   * The adding loop from declaration i on: `type` is looked up before the add and `name` after it, so a
   * declaration without a name still creates its processor before the lookup raises.
   */
  function AddDeclsFrom(w: World, pg: Id, decls: seq<ProcessorDecl>, i: nat, acc: Registry): (Outcome<Registry>, World)
    decreases |decls| - i
  {
    if i >= |decls| then (Ok(acc), w)
    else
      var p := decls[i];
      if p.ptype.None? then (Raised(MissingKey("type")), w)
      else
        var r := StepPostProcessor(w, Group(pg), 0, p.ptype.value, DeclConfig(p));
        if r.0.Raised? then (Raised(r.0.error), r.1)
        else if p.name.None? then (Raised(MissingKey("name")), r.1)
        else AddDeclsFrom(r.1, pg, decls, i + 1, Put(acc, p.name.value, r.0.value))
  }

  /** The processor ids a connection declaration resolves to, when both names are registered. */
  function Resolve(reg: Registry, c: ConnectionDecl): Option<(Id, Id)>
  {
    if c.source.Some? && c.target.Some? && Find(reg, c.source.value).Some? && Find(reg, c.target.value).Some?
    then Some((Find(reg, c.source.value).value, Find(reg, c.target.value).value))
    else None
  }

  /**
   * The wiring loop from connection i on, posting in `g`: `source` then `target` are looked up (a missing
   * key raises), and an unresolved name silently skips the declaration.
   */
  function WireFrom(w: World, reg: Registry, conns: seq<ConnectionDecl>, g: GroupRef, i: nat): (Option<Error>, World)
    decreases |conns| - i
  {
    if i >= |conns| then (None, w)
    else
      var c := conns[i];
      if c.source.None? then (Some(MissingKey("source")), w)
      else if c.target.None? then (Some(MissingKey("target")), w)
      else
        var ends := Resolve(reg, c);
        if ends.None? then WireFrom(w, reg, conns, g, i + 1)
        else
          var r := ConnectSpec(w, ends.value.0, ends.value.1, g, "success");
          if r.0.Raised? then (Some(r.0.error), r.1) else WireFrom(r.1, reg, conns, g, i + 1)
  }

  /** Reference: the edges the declarations from i on ask for, in `g`, skipping those that do not resolve. */
  function Wiring(reg: Registry, conns: seq<ConnectionDecl>, g: GroupRef, i: nat): seq<Edge>
    decreases |conns| - i
  {
    if i >= |conns| then []
    else
      var ends := Resolve(reg, conns[i]);
      (if ends.Some? then [Edge(g, ends.value.0, ends.value.1)] else []) + Wiring(reg, conns, g, i + 1)
  }

  /** Group creation and the adding loop: the new group's id and the name-to-id dictionary. */
  function TemplateBuild(w: World, t: Template, flowName: string): (Outcome<(Id, Registry)>, World)
  {
    var pg := StepPostProcessGroup(w, Root, 0, flowName);
    if pg.0.Raised? then (Raised(pg.0.error), pg.1)
    else
      var add := AddDeclsFrom(pg.1, pg.0.value, Decls(t), 0, []);
      if add.0.Raised? then (Raised(add.0.error), add.1) else (Ok((pg.0.value, add.0.value)), add.1)
  }

  /**
   * `deploy_from_template` on a known template.  As written (`inGroup` false) the wiring calls
   * `connect` without the group, so the connections are posted to root; the corrected deployment
   * (`inGroup` true) posts them to the new group.
   */
  function TemplateSpec(w: World, t: Template, flowName: string, inGroup: bool): (bool, World)
  {
    var b := TemplateBuild(w, t, flowName);
    if b.0.Raised? then (false, b.1)
    else
      var pg := b.0.value.0;
      var reg := b.0.value.1;
      var wire := WireFrom(b.1, reg, Conns(t), if inGroup then Group(pg) else Root, 0);
      if wire.0.Some? then (false, wire.1)
      else (true, StartFrom(wire.1, reg, 0).1)
  }

  /** An unknown template name sends nothing and fails. */
  function DeployTemplateSpec(w: World, templates: map<string, Template>, templateName: string, flowName: string,
                              inGroup: bool): (bool, World)
  {
    if templateName !in templates then (false, w) else TemplateSpec(w, templates[templateName], flowName, inGroup)
  }

  /** A found id is registered under that key. */
  lemma {:induction false} FindIn(d: Registry, key: string)
    ensures Find(d, key).Some? <==> key in Keys(d)
    ensures Find(d, key).Some? ==> (key, Find(d, key).value) in d
  {
    if d != [] {
      FindIn(d[1..], key);
      assert Keys(d) == [d[0].0] + Keys(d[1..]);
    }
  }

  /**
   * The adding loop sends only creation requests, touches no group or connection, and leaves every
   * processor that existed below the id counter as it was.
   */
  lemma {:induction false} AddDeclsSends(w: World, pg: Id, decls: seq<ProcessorDecl>, i: nat, acc: Registry)
    decreases |decls| - i
    ensures var r := AddDeclsFrom(w, pg, decls, i, acc);
      && Extends(w, r.1) && Edges(Sent(w, r.1)) == [] && NoPuts(Sent(w, r.1))
      && r.1.connections == w.connections && r.1.groups == w.groups && w.nextId <= r.1.nextId
      && (forall id :: id in w.nodes ==> id in r.1.nodes)
      && (forall id :: id in w.nodes && id < w.nextId ==> r.1.nodes[id] == w.nodes[id])
  {
    if i < |decls| && decls[i].ptype.Some? {
      var p := decls[i];
      var r1 := StepPostProcessor(w, Group(pg), 0, p.ptype.value, DeclConfig(p));
      PostProcessorLogged(w, Group(pg), p.ptype.value, DeclConfig(p));
      assert Sent(w, r1.1) == [PostProcessor(Group(pg), 0, p.ptype.value, DeclConfig(p))];
      EdgesOfReads(Sent(w, r1.1));
      if r1.0.Ok? && p.name.Some? {
        var acc1 := Put(acc, p.name.value, r1.0.value);
        AddDeclsSends(r1.1, pg, decls, i + 1, acc1);
        var r := AddDeclsFrom(r1.1, pg, decls, i + 1, acc1);
        ExtendsChain(w, r1.1, r.1);
        EdgesAppend(Sent(w, r1.1), Sent(r1.1, r.1));
        NoPutsAppend(Sent(w, r1.1), Sent(r1.1, r.1));
      }
    } else {
      assert Sent(w, w) == [];
    }
  }

  /** Without a raise, every declaration had a type and a name and was given the next id. */
  lemma {:induction false} AddDeclsComplete(w: World, pg: Id, decls: seq<ProcessorDecl>, i: nat, acc: Registry)
    requires i <= |decls|
    decreases |decls| - i
    ensures var r := AddDeclsFrom(w, pg, decls, i, acc);
      r.0.Ok? ==>
        && r.1.nextId == w.nextId + (|decls| - i)
        && (forall k :: i <= k < |decls| ==> decls[k].name.Some? && decls[k].ptype.Some?)
  {
    if i < |decls| && decls[i].ptype.Some? {
      var p := decls[i];
      var r1 := StepPostProcessor(w, Group(pg), 0, p.ptype.value, DeclConfig(p));
      if r1.0.Ok? && p.name.Some? {
        assert r1.1.nextId == w.nextId + 1;
        var acc1 := Put(acc, p.name.value, r1.0.value);
        var r := AddDeclsFrom(r1.1, pg, decls, i + 1, acc1);
        assert AddDeclsFrom(w, pg, decls, i, acc) == r;
        AddDeclsComplete(r1.1, pg, decls, i + 1, acc1);
      }
    }
  }

  /**
   * Without a raise, each declared name is registered with the id of its last declaration: when a name is
   * declared twice the later processor wins.
   */
  lemma {:induction false} AddDeclsLastWins(w: World, pg: Id, decls: seq<ProcessorDecl>, i: nat, acc: Registry, k: nat)
    requires i <= k < |decls| && decls[k].name.Some? && LastDeclaration(decls, k)
    requires AddDeclsFrom(w, pg, decls, i, acc).0.Ok?
    decreases |decls| - i
    ensures Find(AddDeclsFrom(w, pg, decls, i, acc).0.value, decls[k].name.value) == Some(w.nextId + (k - i))
  {
    var p := decls[i];
    var r1 := StepPostProcessor(w, Group(pg), 0, p.ptype.value, DeclConfig(p));
    assert r1.0.value == w.nextId && r1.1.nextId == w.nextId + 1;
    var acc1 := Put(acc, p.name.value, w.nextId);
    assert AddDeclsFrom(w, pg, decls, i, acc) == AddDeclsFrom(r1.1, pg, decls, i + 1, acc1);
    if k == i {
      AddDeclsKeepsOthers(r1.1, pg, decls, i + 1, acc1, p.name.value);
      PutThenFind(acc, p.name.value, w.nextId, p.name.value);
    } else {
      AddDeclsLastWins(r1.1, pg, decls, i + 1, acc1, k);
      assert r1.1.nextId + (k - (i + 1)) == w.nextId + (k - i);
    }
  }


  /** Declaration k is the last one with its name. */
  ghost predicate LastDeclaration(decls: seq<ProcessorDecl>, k: nat)
    requires k < |decls|
  {
    forall j :: k < j < |decls| ==> decls[j].name != decls[k].name
  }

  /** Without a raise, a name that no declaration from i on uses keeps whatever the dictionary had for it. */
  lemma {:induction false} AddDeclsKeepsOthers(w: World, pg: Id, decls: seq<ProcessorDecl>, i: nat, acc: Registry, n: string)
    requires forall j :: i <= j < |decls| ==> decls[j].name != Some(n)
    decreases |decls| - i
    ensures var r := AddDeclsFrom(w, pg, decls, i, acc);
      r.0.Ok? ==> Find(r.0.value, n) == Find(acc, n)
  {
    if i < |decls| && decls[i].ptype.Some? {
      var p := decls[i];
      var r1 := StepPostProcessor(w, Group(pg), 0, p.ptype.value, DeclConfig(p));
      if r1.0.Ok? && p.name.Some? {
        var acc1 := Put(acc, p.name.value, r1.0.value);
        AddDeclsKeepsOthers(r1.1, pg, decls, i + 1, acc1, n);
        PutThenFind(acc, p.name.value, r1.0.value, n);
        var r := AddDeclsFrom(r1.1, pg, decls, i + 1, acc1);
        assert AddDeclsFrom(w, pg, decls, i, acc) == r;
      }
    }
  }

  /** Processor `id` of `w` was created in `pg` from declaration `p`: its type and its configuration. */
  ghost predicate HoldsDecl(w: World, id: Id, pg: Id, p: ProcessorDecl)
  {
    && p.ptype.Some? && id in w.nodes && w.nodes[id].group == Group(pg)
    && w.nodes[id].ptype == p.ptype.value && w.nodes[id].config == DeclConfig(p)
  }

  /** Processors `base`, `base + 1`, ... of `w` were created from the declarations of `rest`, in order. */
  ghost predicate HoldsDecls(w: World, base: Id, pg: Id, rest: seq<ProcessorDecl>)
    decreases |rest|
  {
    |rest| == 0 || (HoldsDecl(w, base, pg, rest[0]) && HoldsDecls(w, base + 1, pg, rest[1..]))
  }

  /** The k-th of a run of processors created from declarations was created from the k-th declaration. */
  lemma {:induction false} HoldsDeclsAt(w: World, base: Id, pg: Id, rest: seq<ProcessorDecl>, k: nat)
    requires HoldsDecls(w, base, pg, rest) && k < |rest|
    ensures HoldsDecl(w, base + k, pg, rest[k])
    decreases k
  {
    if k > 0 {
      HoldsDeclsAt(w, base + 1, pg, rest[1..], k - 1);
      assert rest[1..][k - 1] == rest[k] && base + 1 + (k - 1) == base + k;
    }
  }

  /**
   * Without a raise, one id is used per declaration and the processor with the k-th fresh id was created
   * in `pg` from declaration i + k, with its type and its configuration.
   */
  lemma {:induction false} AddDeclsNodes(w: World, pg: Id, decls: seq<ProcessorDecl>, i: nat, acc: Registry)
    requires i <= |decls|
    decreases |decls| - i
    ensures var r := AddDeclsFrom(w, pg, decls, i, acc);
      r.0.Ok? ==> r.1.nextId == w.nextId + (|decls| - i) && HoldsDecls(r.1, w.nextId, pg, decls[i..])
  {
    if i < |decls| && decls[i].ptype.Some? {
      var p := decls[i];
      var r1 := StepPostProcessor(w, Group(pg), 0, p.ptype.value, DeclConfig(p));
      PostProcessorLogged(w, Group(pg), p.ptype.value, DeclConfig(p));
      if r1.0.Ok? && p.name.Some? {
        var acc1 := Put(acc, p.name.value, r1.0.value);
        var r := AddDeclsFrom(r1.1, pg, decls, i + 1, acc1);
        assert AddDeclsFrom(w, pg, decls, i, acc) == r;
        if r.0.Ok? {
          AddDeclsNodes(r1.1, pg, decls, i + 1, acc1);
          AddDeclsSends(r1.1, pg, decls, i + 1, acc1);
          assert HoldsDecl(r1.1, w.nextId, pg, p);
          assert r.1.nodes[w.nextId] == r1.1.nodes[w.nextId];
          assert decls[i..][1..] == decls[i + 1..];
        }
      } else {
        assert AddDeclsFrom(w, pg, decls, i, acc).0.Raised?;
      }
    } else if i < |decls| {
      assert AddDeclsFrom(w, pg, decls, i, acc).0.Raised?;
    }
  }


  /** Every processor the dictionary ends up naming lives in `pg` (given that the ones it started with do). */
  lemma {:induction false} AddDeclsInGroup(w: World, pg: Id, decls: seq<ProcessorDecl>, i: nat, acc: Registry)
    requires forall e :: 0 <= e < |acc| ==> acc[e].1 in w.nodes && acc[e].1 < w.nextId && w.nodes[acc[e].1].group == Group(pg)
    decreases |decls| - i
    ensures var r := AddDeclsFrom(w, pg, decls, i, acc);
      r.0.Ok? ==>
        forall e :: 0 <= e < |r.0.value| ==> r.0.value[e].1 in r.1.nodes && r.1.nodes[r.0.value[e].1].group == Group(pg)
  {
    if i < |decls| && decls[i].ptype.Some? {
      var p := decls[i];
      var r1 := StepPostProcessor(w, Group(pg), 0, p.ptype.value, DeclConfig(p));
      PostProcessorLogged(w, Group(pg), p.ptype.value, DeclConfig(p));
      if r1.0.Ok? && p.name.Some? {
        var acc1 := Put(acc, p.name.value, r1.0.value);
        PutEntries(acc, p.name.value, r1.0.value);
        assert forall e :: 0 <= e < |acc1| ==> acc1[e].1 in r1.1.nodes && acc1[e].1 < r1.1.nextId && r1.1.nodes[acc1[e].1].group == Group(pg) by {
          forall e | 0 <= e < |acc1|
            ensures acc1[e].1 in r1.1.nodes && acc1[e].1 < r1.1.nextId && r1.1.nodes[acc1[e].1].group == Group(pg)
          {
            if acc1[e] != (p.name.value, r1.0.value) {
              var j :| 0 <= j < |acc| && acc[j] == acc1[e];
            }
          }
        }
        AddDeclsInGroup(r1.1, pg, decls, i + 1, acc1);
        var r := AddDeclsFrom(r1.1, pg, decls, i + 1, acc1);
        assert AddDeclsFrom(w, pg, decls, i, acc) == r;
        if r.0.Ok? {
          assert forall e :: 0 <= e < |r.0.value| ==> r.0.value[e].1 in r.1.nodes && r.1.nodes[r.0.value[e].1].group == Group(pg);
        }
      }
    }
  }

  /**
   * The wiring loop posts a prefix of the edges the declarations ask for, all of them when nothing raised;
   * it sends no PUT and changes no processor or group.
   */
  lemma {:induction false} WireEdges(w: World, reg: Registry, conns: seq<ConnectionDecl>, g: GroupRef, i: nat)
    decreases |conns| - i
    ensures var r := WireFrom(w, reg, conns, g, i);
      && Extends(w, r.1)
      && IsPrefix(Edges(Sent(w, r.1)), Wiring(reg, conns, g, i))
      && (r.0.None? ==> Edges(Sent(w, r.1)) == Wiring(reg, conns, g, i))
      && NoPuts(Sent(w, r.1))
      && r.1.nodes == w.nodes && r.1.groups == w.groups
  {
    if i < |conns| && conns[i].source.Some? && conns[i].target.Some? {
      var ends := Resolve(reg, conns[i]);
      if ends.None? {
        assert WireFrom(w, reg, conns, g, i) == WireFrom(w, reg, conns, g, i + 1);
        assert Wiring(reg, conns, g, i) == Wiring(reg, conns, g, i + 1);
        WireEdges(w, reg, conns, g, i + 1);
      } else {
        var e := Edge(g, ends.value.0, ends.value.1);
        assert Wiring(reg, conns, g, i) == [e] + Wiring(reg, conns, g, i + 1);
        var c := ConnectSpec(w, ends.value.0, ends.value.1, g, "success");
        ConnectEdges(w, ends.value.0, ends.value.1, g, "success");
        if c.0.Ok? {
          var r := WireFrom(c.1, reg, conns, g, i + 1);
          assert WireFrom(w, reg, conns, g, i) == r;
          WireEdges(c.1, reg, conns, g, i + 1);
          ExtendsChain(w, c.1, r.1);
          EdgesAppend(Sent(w, c.1), Sent(c.1, r.1));
          NoPutsAppend(Sent(w, c.1), Sent(c.1, r.1));
          PrefixCons(e, Edges(Sent(c.1, r.1)), Wiring(reg, conns, g, i + 1));
        } else {
          assert WireFrom(w, reg, conns, g, i) == (Some(c.0.error), c.1);
          PrefixOfHead(Edges(Sent(w, c.1)), e, Wiring(reg, conns, g, i + 1));
        }
      }
    } else {
      assert i >= |conns| ==> WireFrom(w, reg, conns, g, i) == (None, w) && Wiring(reg, conns, g, i) == [];
      assert i < |conns| ==> WireFrom(w, reg, conns, g, i).1 == w;
      assert Sent(w, w) == [];
    }
  }

  /**
   * Posting the wiring to root when every registered processor lives in some other group: as soon as
   * one declaration from i on resolves, the loop raises.
   */
  lemma {:induction false} WireInRootRaises(w: World, reg: Registry, conns: seq<ConnectionDecl>, i: nat, k: nat)
    requires i <= k < |conns| && Resolve(reg, conns[k]).Some?
    requires forall e :: 0 <= e < |reg| ==> reg[e].1 in w.nodes && w.nodes[reg[e].1].group != Root
    decreases k - i
    ensures WireFrom(w, reg, conns, Root, i).0.Some?
  {
    var c := conns[i];
    if c.source.Some? && c.target.Some? {
      var ends := Resolve(reg, c);
      if ends.None? {
        WireInRootRaises(w, reg, conns, i + 1, k);
      } else {
        FindIn(reg, c.source.value);
        var e :| 0 <= e < |reg| && reg[e] == (c.source.value, ends.value.0);
        ConnectAcrossGroupsRejected(w, ends.value.0, ends.value.1, Root, "success");
      }
    }
  }

  /** With nothing resolving, the reference wiring is empty. */
  lemma {:induction false} WiringEmpty(reg: Registry, conns: seq<ConnectionDecl>, g: GroupRef, i: nat)
    requires forall k :: i <= k < |conns| ==> Resolve(reg, conns[k]).None?
    decreases |conns| - i
    ensures Wiring(reg, conns, g, i) == []
  {
    if i < |conns| {
      WiringEmpty(reg, conns, g, i + 1);
    }
  }

  /** Without a raise, every declared name from i on is a key of the dictionary, and so are the old keys. */
  lemma {:induction false} AddDeclsRegistersAll(w: World, pg: Id, decls: seq<ProcessorDecl>, i: nat, acc: Registry)
    requires i <= |decls|
    decreases |decls| - i
    ensures var r := AddDeclsFrom(w, pg, decls, i, acc);
      r.0.Ok? ==>
        && (forall n :: n in Keys(acc) ==> n in Keys(r.0.value))
        && (forall k :: i <= k < |decls| && decls[k].name.Some? ==> decls[k].name.value in Keys(r.0.value))
  {
    if i < |decls| && decls[i].ptype.Some? {
      var p := decls[i];
      var r1 := StepPostProcessor(w, Group(pg), 0, p.ptype.value, DeclConfig(p));
      if r1.0.Ok? && p.name.Some? {
        var acc1 := Put(acc, p.name.value, r1.0.value);
        PutKeys(acc, p.name.value, r1.0.value);
        assert p.name.value !in Keys(acc) ==> Keys(acc1) == Keys(acc) + [p.name.value];
        AddDeclsRegistersAll(r1.1, pg, decls, i + 1, acc1);
        var r := AddDeclsFrom(r1.1, pg, decls, i + 1, acc1);
        assert AddDeclsFrom(w, pg, decls, i, acc) == r;
      }
    }
  }

  /**
   * Building from a template that raised nothing: the new group gets the next id and the declarations the
   * ids after it, every declaration having had a name and a type.
   */
  lemma TemplateBuildIds(w: World, t: Template, flowName: string)
    ensures var b := TemplateBuild(w, t, flowName);
      b.0.Ok? ==>
        && b.0.value.0 == w.nextId && b.1.nextId == w.nextId + 1 + |Decls(t)|
        && (forall k :: 0 <= k < |Decls(t)| ==> Decls(t)[k].name.Some? && Decls(t)[k].ptype.Some?)
  {
    var pg := StepPostProcessGroup(w, Root, 0, flowName);
    PostProcessGroupLogged(w, flowName);
    if pg.0.Ok? {
      var add := AddDeclsFrom(pg.1, pg.0.value, Decls(t), 0, []);
      if add.0.Ok? {
        assert TemplateBuild(w, t, flowName) == (Ok((w.nextId, add.0.value)), add.1);
        AddDeclsComplete(pg.1, pg.0.value, Decls(t), 0, []);
      }
    }
  }

  /** Building from a template: each name is registered with the processor of its last declaration. */
  lemma TemplateBuildLastWins(w: World, t: Template, flowName: string)
    ensures var b := TemplateBuild(w, t, flowName);
      b.0.Ok? ==>
        forall k :: 0 <= k < |Decls(t)| && Decls(t)[k].name.Some? && LastDeclaration(Decls(t), k) ==>
          Find(b.0.value.1, Decls(t)[k].name.value) == Some(w.nextId + 1 + k)
  {
    var pg := StepPostProcessGroup(w, Root, 0, flowName);
    if pg.0.Ok? {
      assert pg.0.value == w.nextId && pg.1.nextId == w.nextId + 1;
      var decls := Decls(t);
      var add := AddDeclsFrom(pg.1, w.nextId, decls, 0, []);
      if add.0.Ok? {
        assert TemplateBuild(w, t, flowName) == (Ok((w.nextId, add.0.value)), add.1);
        forall k | 0 <= k < |decls| && decls[k].name.Some? && LastDeclaration(decls, k)
          ensures Find(add.0.value, decls[k].name.value) == Some(w.nextId + 1 + k)
        {
          AddDeclsLastWins(pg.1, w.nextId, decls, 0, [], k);
        }
      }
    }
  }

  /** Building from a template: every registered processor lives in the new group. */
  lemma TemplateBuildInGroup(w: World, t: Template, flowName: string)
    ensures var b := TemplateBuild(w, t, flowName);
      b.0.Ok? ==>
        forall e :: 0 <= e < |b.0.value.1| ==>
          b.0.value.1[e].1 in b.1.nodes && b.1.nodes[b.0.value.1[e].1].group == Group(w.nextId)
  {
    var pg := StepPostProcessGroup(w, Root, 0, flowName);
    PostProcessGroupLogged(w, flowName);
    if pg.0.Ok? {
      var add := AddDeclsFrom(pg.1, pg.0.value, Decls(t), 0, []);
      if add.0.Ok? {
        assert TemplateBuild(w, t, flowName) == (Ok((w.nextId, add.0.value)), add.1);
        AddDeclsInGroup(pg.1, pg.0.value, Decls(t), 0, []);
        assert forall e :: 0 <= e < |add.0.value| ==> add.0.value[e].1 in add.1.nodes && add.1.nodes[add.0.value[e].1].group == Group(w.nextId);
      }
    }
  }

  /** A connection declaration between two processors that the template declares. */
  predicate ConnectsDeclared(t: Template, c: ConnectionDecl)
  {
    && c.source.Some? && c.target.Some?
    && (exists j :: 0 <= j < |Decls(t)| && Decls(t)[j].name == c.source)
    && (exists j :: 0 <= j < |Decls(t)| && Decls(t)[j].name == c.target)
  }

  /**
   * As written, a template that declares any connection between two of its own processors always fails:
   * the processors are created in the new group but the connection is posted to root, which refuses it.
   */
  lemma TemplateRootWiringFails(w: World, t: Template, flowName: string, k: nat)
    requires k < |Conns(t)| && ConnectsDeclared(t, Conns(t)[k])
    ensures !TemplateSpec(w, t, flowName, false).0
  {
    var b := TemplateBuild(w, t, flowName);
    if b.0.Ok? {
      var pg := StepPostProcessGroup(w, Root, 0, flowName);
      PostProcessGroupLogged(w, flowName);
      var reg := b.0.value.1;
      AddDeclsRegistersAll(pg.1, pg.0.value, Decls(t), 0, []);
      TemplateBuildInGroup(w, t, flowName);
      var c := Conns(t)[k];
      var js :| 0 <= js < |Decls(t)| && Decls(t)[js].name == c.source;
      var jt :| 0 <= jt < |Decls(t)| && Decls(t)[jt].name == c.target;
      FindIn(reg, c.source.value);
      FindIn(reg, c.target.value);
      assert Resolve(reg, c).Some?;
      WireInRootRaises(b.1, reg, Conns(t), 0, k);
    }
  }

  /** As written, a template deployment that reports success has posted no connection at all. */
  lemma TemplateRootDeployPostsNothing(w: World, t: Template, flowName: string)
    ensures var r := TemplateSpec(w, t, flowName, false);
      Extends(w, r.1) && (r.0 ==> Edges(Sent(w, r.1)) == [])
  {
    var pg := StepPostProcessGroup(w, Root, 0, flowName);
    PostProcessGroupLogged(w, flowName);
    var b := TemplateBuild(w, t, flowName);
    if pg.0.Raised? {
      assert TemplateSpec(w, t, flowName, false) == (false, pg.1);
    } else {
      var add := AddDeclsFrom(pg.1, pg.0.value, Decls(t), 0, []);
      AddDeclsSends(pg.1, pg.0.value, Decls(t), 0, []);
      assert b.1 == add.1;
      if b.0.Raised? {
        ExtendsChain(w, pg.1, add.1);
      } else {
        var reg := b.0.value.1;
        TemplateBuildInGroup(w, t, flowName);
        var wire := WireFrom(b.1, reg, Conns(t), Root, 0);
        WireEdges(b.1, reg, Conns(t), Root, 0);
        if wire.0.Some? {
          ExtendsChain(w, pg.1, add.1);
          ExtendsChain(w, add.1, wire.1);
        } else {
          forall k | 0 <= k < |Conns(t)|
            ensures Resolve(reg, Conns(t)[k]).None?
          {
            if Resolve(reg, Conns(t)[k]).Some? {
              WireInRootRaises(b.1, reg, Conns(t), 0, k);
            }
          }
          WiringEmpty(reg, Conns(t), Root, 0);
          var fin := StartFrom(wire.1, reg, 0).1;
          StartFromEffect(wire.1, reg, 0);
          SentEdgesOfParts(w, pg.1, add.1, wire.1, fin);
        }
      }
    }
  }

  /**
   * Corrected wiring, posted in the new group: a deployment that reports success has posted exactly the
   * connections the template's declarations resolve to, in declaration order, in the new group, between
   * processors of that group.
   */
  lemma TemplateGroupWiringConnects(w: World, t: Template, flowName: string)
    ensures var r := TemplateSpec(w, t, flowName, true);
      var b := TemplateBuild(w, t, flowName);
      && Extends(w, r.1)
      && (r.0 ==>
            && b.0.Ok?
            && Edges(Sent(w, r.1)) == Wiring(b.0.value.1, Conns(t), Group(w.nextId), 0))
  {
    var pg := StepPostProcessGroup(w, Root, 0, flowName);
    PostProcessGroupLogged(w, flowName);
    var b := TemplateBuild(w, t, flowName);
    if pg.0.Raised? {
      assert TemplateSpec(w, t, flowName, true) == (false, pg.1);
    } else {
      var add := AddDeclsFrom(pg.1, pg.0.value, Decls(t), 0, []);
      AddDeclsSends(pg.1, pg.0.value, Decls(t), 0, []);
      assert b.1 == add.1;
      if b.0.Raised? {
        ExtendsChain(w, pg.1, add.1);
      } else {
        var reg := b.0.value.1;
        var wire := WireFrom(b.1, reg, Conns(t), Group(w.nextId), 0);
        WireEdges(b.1, reg, Conns(t), Group(w.nextId), 0);
        if wire.0.Some? {
          ExtendsChain(w, pg.1, add.1);
          ExtendsChain(w, add.1, wire.1);
        } else {
          var fin := StartFrom(wire.1, reg, 0).1;
          StartFromEffect(wire.1, reg, 0);
          SentEdgesOfParts(w, pg.1, add.1, wire.1, fin);
        }
      }
    }
  }

  /** The transport holds for every request from now on. */
  predicate TransportHolds(w: World)
  {
    forall k :: |w.log| <= k ==> k !in w.faults
  }

  /** A declaration the adding loop accepts: a name, and a known type that declares "success". */
  predicate WellDeclared(catalog: map<string, seq<string>>, p: ProcessorDecl)
  {
    && p.name.Some? && p.ptype.Some? && p.ptype.value in catalog
    && "success" in catalog[p.ptype.value]
  }

  /** Processor `id` lives in `g` and declares "success", so `connect` from it in `g` can be accepted. */
  ghost predicate Wirable(w: World, id: Id, g: GroupRef)
  {
    id in w.nodes && w.nodes[id].group == g && Declares(w.nodes[id], "success")
  }

  /** A processor created from a catalog type listing "success" declares "success". */
  lemma CreatedDeclaresSuccess(names: seq<string>, terminated: seq<string>)
    requires "success" in names
    ensures exists k :: 0 <= k < |InitialRelationships(names, terminated)| && InitialRelationships(names, terminated)[k].name == "success"
  {
    var k :| 0 <= k < |names| && names[k] == "success";
    assert InitialRelationships(names, terminated)[k].name == "success";
  }

  /**
   * With the transport holding and every declaration well formed, the adding loop raises nothing, and
   * every processor the dictionary names is wirable in the group.
   */
  lemma {:induction false} AddDeclsSucceeds(w: World, pg: Id, decls: seq<ProcessorDecl>, i: nat, acc: Registry)
    requires i <= |decls|
    requires TransportHolds(w) && pg in w.groups
    requires forall k :: i <= k < |decls| ==> WellDeclared(w.catalog, decls[k])
    requires forall e :: 0 <= e < |acc| ==> Wirable(w, acc[e].1, Group(pg))
    decreases |decls| - i
    ensures var r := AddDeclsFrom(w, pg, decls, i, acc);
      && r.0.Ok?
      && (forall e :: 0 <= e < |r.0.value| ==> Wirable(r.1, r.0.value[e].1, Group(pg)))
      && TransportHolds(r.1) && r.1.groups == w.groups
  {
    if i < |decls| {
      var p := decls[i];
      var r1 := StepPostProcessor(w, Group(pg), 0, p.ptype.value, DeclConfig(p));
      PostProcessorLogged(w, Group(pg), p.ptype.value, DeclConfig(p));
      assert r1.0.Ok?;
      var id := r1.0.value;
      CreatedDeclaresSuccess(w.catalog[p.ptype.value], DeclConfig(p).autoTerminatedRelationships);
      assert Wirable(r1.1, id, Group(pg));
      var acc1 := Put(acc, p.name.value, id);
      PutEntries(acc, p.name.value, id);
      forall e | 0 <= e < |acc1|
        ensures Wirable(r1.1, acc1[e].1, Group(pg))
      {
        if acc1[e] != (p.name.value, id) {
          var e0 :| 0 <= e0 < |acc| && acc[e0] == acc1[e];
          assert Wirable(w, acc[e0].1, Group(pg));
        }
      }
      AddDeclsSucceeds(r1.1, pg, decls, i + 1, acc1);
    }
  }

  /**
   * With the transport holding, the group existing, every declaration naming both ends and every
   * registered processor wirable in `g`, the wiring loop raises nothing.
   */
  lemma {:induction false} WireSucceeds(w: World, reg: Registry, conns: seq<ConnectionDecl>, g: GroupRef, i: nat)
    requires TransportHolds(w) && GroupExists(w, g)
    requires forall k :: i <= k < |conns| ==> conns[k].source.Some? && conns[k].target.Some?
    requires forall e :: 0 <= e < |reg| ==> Wirable(w, reg[e].1, g)
    decreases |conns| - i
    ensures WireFrom(w, reg, conns, g, i).0.None?
  {
    if i < |conns| {
      var c := conns[i];
      var ends := Resolve(reg, c);
      if ends.None? {
        WireSucceeds(w, reg, conns, g, i + 1);
      } else {
        var s := ends.value.0;
        var t := ends.value.1;
        FindIn(reg, c.source.value);
        FindIn(reg, c.target.value);
        var es :| 0 <= es < |reg| && reg[es] == (c.source.value, s);
        var et :| 0 <= et < |reg| && reg[et] == (c.target.value, t);
        assert Wirable(w, s, g) && Wirable(w, t, g);
        ResolvedIsDeclared(w.nodes[s], "success");
        ConnectInGroupAccepted(w, s, t, g, "success");
        var r := ConnectSpec(w, s, t, g, "success");
        ConnectKeepsProcessors(w, s, t, g, "success");
        ConnectIssues(w, s, t, g, "success");
        assert |w.log| <= |r.1.log|;
        WireSucceeds(r.1, reg, conns, g, i + 1);
        assert WireFrom(w, reg, conns, g, i) == WireFrom(r.1, reg, conns, g, i + 1);
      }
    }
  }

  /**
   * Corrected wiring, posted in the new group: with the transport holding, every processor declaration
   * well formed and every connection declaration naming both ends, the deployment succeeds, and it has
   * posted exactly the connections the declarations resolve to.
   */
  lemma TemplateGroupDeploySucceeds(w: World, t: Template, flowName: string)
    requires TransportHolds(w)
    requires forall k :: 0 <= k < |Decls(t)| ==> WellDeclared(w.catalog, Decls(t)[k])
    requires forall k :: 0 <= k < |Conns(t)| ==> Conns(t)[k].source.Some? && Conns(t)[k].target.Some?
    ensures var r := TemplateSpec(w, t, flowName, true);
      var b := TemplateBuild(w, t, flowName);
      && r.0 && b.0.Ok?
      && Extends(w, r.1) && Edges(Sent(w, r.1)) == Wiring(b.0.value.1, Conns(t), Group(w.nextId), 0)
  {
    var pg := StepPostProcessGroup(w, Root, 0, flowName);
    PostProcessGroupLogged(w, flowName);
    assert pg.0 == Ok(w.nextId);
    AddDeclsSucceeds(pg.1, w.nextId, Decls(t), 0, []);
    var add := AddDeclsFrom(pg.1, w.nextId, Decls(t), 0, []);
    var b := TemplateBuild(w, t, flowName);
    assert b == (Ok((w.nextId, add.0.value)), add.1);
    WireSucceeds(add.1, add.0.value, Conns(t), Group(w.nextId), 0);
    TemplateGroupWiringConnects(w, t, flowName);
  }

  /** An unknown template name fails without sending any request. */
  lemma UnknownTemplateFails(w: World, templates: map<string, Template>, templateName: string, flowName: string,
                             inGroup: bool)
    requires templateName !in templates
    ensures DeployTemplateSpec(w, templates, templateName, flowName, inGroup) == (false, w)
  {
  }

  /**
   * A template deployment that fails starts nothing: every raise happens before the start pass, so no PUT
   * is sent.  Nothing is rolled back: the partial graph created before the raise stays in place.
   */
  lemma TemplateFailureStartsNothing(w: World, t: Template, flowName: string, inGroup: bool)
    ensures var r := TemplateSpec(w, t, flowName, inGroup);
      && Extends(w, r.1)
      && (!r.0 ==> NoPuts(Sent(w, r.1)))
      && (r.1.groups == w.groups || r.1.groups == w.groups[w.nextId := ProcessGroup(flowName, Root)])
      && (forall id :: id in w.nodes ==> id in r.1.nodes)
      && KeepsCreated(w, r.1)
  {
    TemplateKeepsCreated(w, t, flowName, inGroup);
    var pg := StepPostProcessGroup(w, Root, 0, flowName);
    PostProcessGroupLogged(w, flowName);
    if pg.0.Raised? {
      assert TemplateSpec(w, t, flowName, inGroup) == (false, pg.1);
    } else {
      var add := AddDeclsFrom(pg.1, pg.0.value, Decls(t), 0, []);
      AddDeclsSends(pg.1, pg.0.value, Decls(t), 0, []);
      ExtendsChain(w, pg.1, add.1);
      NoPutsAppend(Sent(w, pg.1), Sent(pg.1, add.1));
      var b := TemplateBuild(w, t, flowName);
      assert b.1 == add.1;
      if b.0.Ok? {
        var reg := b.0.value.1;
        var g := if inGroup then Group(pg.0.value) else Root;
        var wire := WireFrom(b.1, reg, Conns(t), g, 0);
        WireEdges(b.1, reg, Conns(t), g, 0);
        ExtendsChain(w, add.1, wire.1);
        NoPutsAppend(Sent(w, add.1), Sent(add.1, wire.1));
        if wire.0.None? {
          StartFromEffect(wire.1, reg, 0);
          ExtendsChain(w, wire.1, StartFrom(wire.1, reg, 0).1);
        }
      }
    }
  }

  /** Every edge the reference wiring asks for joins two registered processors. */
  lemma {:induction false} WiringEndpoints(reg: Registry, conns: seq<ConnectionDecl>, g: GroupRef, i: nat)
    decreases |conns| - i
    ensures forall e :: 0 <= e < |Wiring(reg, conns, g, i)| ==>
      && Wiring(reg, conns, g, i)[e].group == g
      && Wiring(reg, conns, g, i)[e].source in Values(reg) && Wiring(reg, conns, g, i)[e].target in Values(reg)
  {
    if i < |conns| {
      WiringEndpoints(reg, conns, g, i + 1);
      var c := conns[i];
      if Resolve(reg, c).Some? {
        FindIn(reg, c.source.value);
        FindIn(reg, c.target.value);
        var es :| 0 <= es < |reg| && reg[es] == (c.source.value, Find(reg, c.source.value).value);
        var et :| 0 <= et < |reg| && reg[et] == (c.target.value, Find(reg, c.target.value).value);
        assert Values(reg)[es] == Resolve(reg, c).value.0;
        assert Values(reg)[et] == Resolve(reg, c).value.1;
      }
    }
  }

  // ---------------------------------------------------------------------
  // The deployer
  // ---------------------------------------------------------------------

  /** `NiFiFlowDeployer`: its one field is the template table, given here since reading files is not modelled. */
  class FlowDeployer {
    const flowTemplates: map<string, Template>

    constructor (templates: map<string, Template>)
      ensures flowTemplates == templates
    {
      flowTemplates := templates;
    }

    /** `deploy_simple_flow`: true exactly when the group, every stage and every connection were created. */
    method DeploySimpleFlow(e: NifiEngine, name: string, description: string) returns (ok: bool)
      requires e.Valid()
      modifies e
      ensures e.Valid()
      ensures (ok, e.State()) == DeployStagesSpec(old(e.State()), name, SelectStages(description))
    {
      var pg := CreatePg(e, name);
      if pg.Raised? {
        return false;
      }
      var processors := CreateProcessorsFromDescription(e, description, pg.value);
      if processors.Raised? {
        return false;
      }
      var err := ConnectProcessors(e, processors.value, pg.value);
      if err.Some? {
        return false;
      }
      var reports := StartFlow(e, processors.value);
      ok := true;
    }

    /** One `_add_*` helper: the archetype's processor type and configuration, added to group `pg`. */
    method AddStage(e: NifiEngine, pg: Id, a: Archetype) returns (out: Outcome<Id>)
      requires e.Valid()
      modifies e
      ensures e.Valid()
      ensures (out, e.State()) == StepPostProcessor(old(e.State()), Group(pg), 0, ProcessorType(a), ArchetypeConfig(a))
    {
      out := AddProcessor(e, Group(pg), ProcessorType(a), ArchetypeConfig(a));
    }

    /** `_create_processors_from_description`: the selected stages, added in order until one raises. */
    method CreateProcessorsFromDescription(e: NifiEngine, description: string, pg: Id) returns (out: Outcome<Registry>)
      requires e.Valid()
      modifies e
      ensures e.Valid()
      ensures (out, e.State()) == AddStagesFrom(old(e.State()), pg, SelectStages(description), 0, [])
    {
      var d := Lower(description);
      ghost var stages := SelectStages(description);
      StagePositions(description);
      var processors: Registry := [];
      ghost var before := e.State();
      var id := AddStage(e, pg, SourceArchetype(d));
      if id.Raised? {
        return Raised(id.error);
      }
      processors := Put(processors, "source", id.value);
      ghost var k: nat := 1;
      assert AddStagesFrom(before, pg, stages, 0, []) == AddStagesFrom(e.State(), pg, stages, k, processors);
      if WantsTransform(d) {
        before := e.State();
        ghost var previous := processors;
        id := AddStage(e, pg, Transformer);
        if id.Raised? {
          assert AddStagesFrom(before, pg, stages, k, previous) == (Raised(id.error), e.State());
          return Raised(id.error);
        }
        processors := Put(processors, "transform", id.value);
        assert AddStagesFrom(before, pg, stages, k, previous) == AddStagesFrom(e.State(), pg, stages, k + 1, processors);
        k := k + 1;
      }
      if WantsFilter(d) {
        before := e.State();
        ghost var previous := processors;
        id := AddStage(e, pg, Filter);
        if id.Raised? {
          assert AddStagesFrom(before, pg, stages, k, previous) == (Raised(id.error), e.State());
          return Raised(id.error);
        }
        processors := Put(processors, "filter", id.value);
        assert AddStagesFrom(before, pg, stages, k, previous) == AddStagesFrom(e.State(), pg, stages, k + 1, processors);
        k := k + 1;
      }
      before := e.State();
      ghost var previous := processors;
      id := AddStage(e, pg, DestinationArchetype(d));
      if id.Raised? {
        assert AddStagesFrom(before, pg, stages, k, previous) == (Raised(id.error), e.State());
        return Raised(id.error);
      }
      processors := Put(processors, "destination", id.value);
      assert AddStagesFrom(before, pg, stages, k, previous) == AddStagesFrom(e.State(), pg, stages, k + 1, processors);
      out := Ok(processors);
    }

    /** `_connect_processors`: each processor to the next, in dictionary order, until a `connect` raises. */
    method ConnectProcessors(e: NifiEngine, processors: Registry, pg: Id) returns (err: Option<Error>)
      requires e.Valid()
      modifies e
      ensures e.Valid()
      ensures (err, e.State()) == ChainFrom(old(e.State()), Values(processors), Group(pg), 0)
    {
      var processorList := Values(processors);
      var i := 0;
      while i + 1 < |processorList|
        invariant e.Valid()
        invariant ChainFrom(e.State(), processorList, Group(pg), i) == ChainFrom(old(e.State()), processorList, Group(pg), 0)
        decreases |processorList| - i
      {
        var connection := Connect(e, processorList[i], processorList[i + 1], Group(pg));
        if connection.Raised? {
          return Some(connection.error);
        }
        i := i + 1;
      }
      return None;
    }

    /**
     * `_start_flow`: for each entry, auto-terminate "success" first when it is the last one, then start
     * it; a raise in either becomes that entry's warning and the pass goes on.
     */
    method StartFlow(e: NifiEngine, processors: Registry) returns (reports: seq<EntryReport>)
      requires e.Valid()
      modifies e
      ensures e.Valid()
      ensures (reports, e.State()) == StartFrom(old(e.State()), processors, 0)
    {
      reports := [];
      var i := 0;
      assert reports + StartFrom(e.State(), processors, 0).0 == StartFrom(e.State(), processors, 0).0;
      while i < |processors|
        invariant i <= |processors| && e.Valid()
        invariant (reports + StartFrom(e.State(), processors, i).0, StartFrom(e.State(), processors, i).1)
                  == StartFrom(old(e.State()), processors, 0)
      {
        var (name, processorId) := processors[i];
        ghost var before := e.State();
        var failure: Option<Error> := None;
        if i == |processors| - 1 {
          var terminated := AutoTerminateRelationships(e, processorId, ["success"]);
          if terminated.Raised? {
            failure := Some(terminated.error);
          }
        }
        ghost var mid := e.State();
        ghost var entry := StartEntry(before, name, processorId, i == |processors| - 1);
        assert failure.Some? ==> entry == (NotStarted(name, failure.value), mid);
        assert failure.None? ==> entry == StartOne(mid, name, processorId);
        if failure.None? {
          var started := StartProcessor(e, processorId);
          if started.Raised? {
            failure := Some(started.error);
          }
          assert (if failure.None? then Started(name) else NotStarted(name, failure.value), e.State())
              == StartOne(mid, name, processorId);
        }
        var report := if failure.None? then Started(name) else NotStarted(name, failure.value);
        assert (report, e.State()) == entry;
        ghost var rest := StartFrom(e.State(), processors, i + 1);
        assert StartFrom(before, processors, i) == ([report] + rest.0, rest.1);
        ConsAssoc(reports, report, rest.0);
        reports := reports + [report];
        i := i + 1;
      }
      assert reports + StartFrom(e.State(), processors, i).0 == reports;
    }

    /** `deploy_from_template` as written: the wiring is posted to root. */
    method DeployFromTemplate(e: NifiEngine, templateName: string, flowName: string) returns (ok: bool)
      requires e.Valid()
      modifies e
      ensures e.Valid()
      ensures (ok, e.State()) == DeployTemplateSpec(old(e.State()), flowTemplates, templateName, flowName, false)
    {
      if templateName !in flowTemplates {
        return false;
      }
      ok := DeployTemplate(e, flowTemplates[templateName], flowName, false);
    }

    /** `deploy_from_template` with the wiring posted to the new group, as the other deployment does. */
    method DeployFromTemplateInGroup(e: NifiEngine, templateName: string, flowName: string) returns (ok: bool)
      requires e.Valid()
      modifies e
      ensures e.Valid()
      ensures (ok, e.State()) == DeployTemplateSpec(old(e.State()), flowTemplates, templateName, flowName, true)
    {
      if templateName !in flowTemplates {
        return false;
      }
      ok := DeployTemplate(e, flowTemplates[templateName], flowName, true);
    }

    /** The body of `deploy_from_template` once the template is found. */
    method DeployTemplate(e: NifiEngine, t: Template, flowName: string, inGroup: bool) returns (ok: bool)
      requires e.Valid()
      modifies e
      ensures e.Valid()
      ensures (ok, e.State()) == TemplateSpec(old(e.State()), t, flowName, inGroup)
    {
      var pg := CreatePg(e, flowName);
      if pg.Raised? {
        return false;
      }
      var processors := AddDeclarations(e, pg.value, Decls(t));
      if processors.Raised? {
        return false;
      }
      var err := WireDeclarations(e, processors.value, Conns(t), if inGroup then Group(pg.value) else Root);
      if err.Some? {
        return false;
      }
      var reports := StartFlow(e, processors.value);
      ok := true;
    }

    /** The adding loop of `deploy_from_template`. */
    method AddDeclarations(e: NifiEngine, pg: Id, decls: seq<ProcessorDecl>) returns (out: Outcome<Registry>)
      requires e.Valid()
      modifies e
      ensures e.Valid()
      ensures (out, e.State()) == AddDeclsFrom(old(e.State()), pg, decls, 0, [])
    {
      var processors: Registry := [];
      var i := 0;
      while i < |decls|
        invariant i <= |decls| && e.Valid()
        invariant AddDeclsFrom(e.State(), pg, decls, i, processors) == AddDeclsFrom(old(e.State()), pg, decls, 0, [])
      {
        var procConfig := decls[i];
        if procConfig.ptype.None? {
          return Raised(MissingKey("type"));
        }
        var processorId := AddProcessor(e, Group(pg), procConfig.ptype.value, DeclConfig(procConfig));
        if processorId.Raised? {
          return Raised(processorId.error);
        }
        if procConfig.name.None? {
          return Raised(MissingKey("name"));
        }
        processors := Put(processors, procConfig.name.value, processorId.value);
        i := i + 1;
      }
      return Ok(processors);
    }

    /** The wiring loop of `deploy_from_template`, posting each resolved declaration in `g`. */
    method WireDeclarations(e: NifiEngine, processors: Registry, conns: seq<ConnectionDecl>, g: GroupRef)
      returns (err: Option<Error>)
      requires e.Valid()
      modifies e
      ensures e.Valid()
      ensures (err, e.State()) == WireFrom(old(e.State()), processors, conns, g, 0)
    {
      var i := 0;
      while i < |conns|
        invariant i <= |conns| && e.Valid()
        invariant WireFrom(e.State(), processors, conns, g, i) == WireFrom(old(e.State()), processors, conns, g, 0)
      {
        var connection := conns[i];
        if connection.source.None? {
          return Some(MissingKey("source"));
        }
        var source := Find(processors, connection.source.value);
        if connection.target.None? {
          return Some(MissingKey("target"));
        }
        var target := Find(processors, connection.target.value);
        if source.Some? && target.Some? {
          var c := Connect(e, source.value, target.value, g);
          if c.Raised? {
            return Some(c.error);
          }
        }
        i := i + 1;
      }
      return None;
    }
  }
}
