/**
 * The dataflow engine behind the NiFi REST API, as the deployer sees it.
 *
 * None of this is code of the repository: it is the environment the
 * repository talks to, stated as an explicit assumption so that the
 * deployer's behaviour can be proved against it.  Every HTTP request is one
 * `Step*` function on a `World` value; the class `NifiEngine` holds that
 * state in fields and exposes one method per request.
 *
 * Assumed engine rules:
 *  - every request is appended to `log`; request number k (counting from 0)
 *    fails in the transport iff k is in `faults` (this stands for the
 *    network, TLS and HTTP errors that `_make_request` re-raises);
 *  - creating a group, a processor or a connection requires revision
 *    version 0; a created processor starts STOPPED at revision 1;
 *  - a PUT on a processor is accepted only with the stored revision, and an
 *    accepted PUT bumps it by one;
 *  - a PUT that carries relationships replaces the whole relationship set;
 *  - a processor can be set RUNNING only if it is not DISABLED and each of
 *    its relationships is auto-terminated or selected by a connection
 *    leaving it;
 *  - a connection is accepted only if both endpoints exist, live in the
 *    group it is posted to, name that group as their groupId, and it
 *    selects at least one relationship, each declared by the source.
 */
module Engine {
  import opened Common

  type Id = nat

  /** A process group reference: the alias "root" or an engine-assigned id. */
  datatype GroupRef = Root | Group(id: Id)

  datatype RunState = Stopped | Running | Disabled

  datatype Relationship = Relationship(name: string, autoTerminate: bool)

  /** The `config` object the deployer sends with a new processor. */
  datatype Config = Config(
    properties: seq<(string, string)>,
    schedulingPeriod: Option<string>,
    autoTerminatedRelationships: seq<string>)

  /** A processor as the engine stores it and returns it from a GET. */
  datatype Node = Node(
    group: GroupRef,
    ptype: string,
    config: Config,
    state: RunState,
    revision: nat,
    relationships: seq<Relationship>)

  datatype ProcessGroup = ProcessGroup(name: string, parent: GroupRef)

  /** One end of a connection: a PROCESSOR id and its groupId. */
  datatype Endpoint = Endpoint(id: Id, groupId: GroupRef)

  datatype Connection = Connection(
    group: GroupRef,
    source: Endpoint,
    destination: Endpoint,
    selected: seq<string>)

  /** The `component` fields a PUT may carry; `None` means "not sent". */
  datatype Patch = Patch(
    id: Option<Id>,
    state: Option<RunState>,
    config: Option<Config>,
    relationships: Option<seq<Relationship>>)

  datatype Request =
    | PostProcessGroup(parent: GroupRef, version: nat, name: string)
    | PostProcessor(group: GroupRef, version: nat, ptype: string, config: Config)
    | GetProcessor(id: Id)
    | PutProcessor(id: Id, version: nat, patch: Patch)
    | PostConnection(group: GroupRef, version: nat, source: Endpoint, destination: Endpoint, selected: seq<string>)
    | GetStatus(group: GroupRef)
    | GetProcessGroup(group: GroupRef)

  datatype Reason = NotFound | Conflict | BadRequest | NotRunnable

  /** What a call can raise: a transport error, an engine rejection, or a missing dictionary key. */
  datatype Error = TransportError | Rejected(reason: Reason) | MissingKey(key: string)

  /** The result of a call that either returns a value or raises. */
  datatype Outcome<T> = Ok(value: T) | Raised(error: Error)

  datatype FlowStatus =
    | StatusSnapshot(group: GroupRef, running: set<Id>)
    | GroupSnapshot(group: GroupRef)

  datatype World = World(
    catalog: map<string, seq<string>>,  // processor type -> its declared relationships, in order
    faults: set<nat>,                   // request numbers at which the transport fails
    statusSupported: bool,              // whether the status endpoint exists
    groups: map<Id, ProcessGroup>,
    nodes: map<Id, Node>,
    connections: map<Id, Connection>,
    nextId: nat,
    log: seq<Request>)

  /** The engine invariant: ids below the counter, every stored revision at least 1. */
  ghost predicate WellFormed(w: World)
  {
    && (forall id :: id in w.groups ==> id < w.nextId)
    && (forall id :: id in w.connections ==> id < w.nextId)
    && (forall id :: id in w.nodes ==> id < w.nextId && w.nodes[id].revision >= 1)
  }

  function Initial(catalog: map<string, seq<string>>, faults: set<nat>, statusSupported: bool): (w: World)
    ensures WellFormed(w) && w.log == []
  {
    World(catalog, faults, statusSupported, map[], map[], map[], 0, [])
  }

  /** The world after `req` has been sent. */
  function Issue(w: World, req: Request): World
  {
    w.(log := w.log + [req])
  }

  /** The transport fails on the next request. */
  predicate Faulty(w: World)
  {
    |w.log| in w.faults
  }

  predicate GroupExists(w: World, g: GroupRef)
  {
    g.Root? || g.id in w.groups
  }

  /** Some connection leaving `id` selects relationship `name`. */
  predicate Routed(w: World, id: Id, name: string)
  {
    exists c :: c in w.connections && w.connections[c].source.id == id && name in w.connections[c].selected
  }

  /** Every relationship of `n` (processor `id`) is auto-terminated or routed. */
  predicate Runnable(w: World, id: Id, n: Node)
  {
    forall k :: 0 <= k < |n.relationships| ==>
      n.relationships[k].autoTerminate || Routed(w, id, n.relationships[k].name)
  }

  predicate Declares(n: Node, name: string)
  {
    exists k :: 0 <= k < |n.relationships| && n.relationships[k].name == name
  }

  function InitialRelationships(names: seq<string>, terminated: seq<string>): (rs: seq<Relationship>)
    ensures |rs| == |names|
    ensures forall k :: 0 <= k < |names| ==> rs[k] == Relationship(names[k], names[k] in terminated)
  {
    seq(|names|, k requires 0 <= k < |names| => Relationship(names[k], names[k] in terminated))
  }

  function Apply(n: Node, p: Patch): Node
  {
    n.(state := if p.state.Some? then p.state.value else n.state,
       config := if p.config.Some? then p.config.value else n.config,
       relationships := if p.relationships.Some? then p.relationships.value else n.relationships)
  }

  // ---------------------------------------------------------------------
  // One function per request kind: the response and the world afterwards.
  // ---------------------------------------------------------------------

  function StepPostProcessGroup(w: World, parent: GroupRef, version: nat, name: string): (Outcome<Id>, World)
  {
    var w1 := Issue(w, PostProcessGroup(parent, version, name));
    if Faulty(w) then (Raised(TransportError), w1)
    else if version != 0 then (Raised(Rejected(Conflict)), w1)
    else if !GroupExists(w, parent) then (Raised(Rejected(NotFound)), w1)
    else (Ok(w.nextId), w1.(groups := w.groups[w.nextId := ProcessGroup(name, parent)], nextId := w.nextId + 1))
  }

  function StepPostProcessor(w: World, group: GroupRef, version: nat, ptype: string, config: Config): (Outcome<Id>, World)
  {
    var w1 := Issue(w, PostProcessor(group, version, ptype, config));
    if Faulty(w) then (Raised(TransportError), w1)
    else if version != 0 then (Raised(Rejected(Conflict)), w1)
    else if !GroupExists(w, group) then (Raised(Rejected(NotFound)), w1)
    else if ptype !in w.catalog then (Raised(Rejected(BadRequest)), w1)
    else
      var n := Node(group, ptype, config, Stopped, 1,
                    InitialRelationships(w.catalog[ptype], config.autoTerminatedRelationships));
      (Ok(w.nextId), w1.(nodes := w.nodes[w.nextId := n], nextId := w.nextId + 1))
  }

  function StepGetProcessor(w: World, id: Id): (Outcome<Node>, World)
  {
    var w1 := Issue(w, GetProcessor(id));
    if Faulty(w) then (Raised(TransportError), w1)
    else if id !in w.nodes then (Raised(Rejected(NotFound)), w1)
    else (Ok(w.nodes[id]), w1)
  }

  function StepPutProcessor(w: World, id: Id, version: nat, patch: Patch): (Outcome<Node>, World)
  {
    var w1 := Issue(w, PutProcessor(id, version, patch));
    if Faulty(w) then (Raised(TransportError), w1)
    else if id !in w.nodes then (Raised(Rejected(NotFound)), w1)
    else if patch.id.Some? && patch.id.value != id then (Raised(Rejected(BadRequest)), w1)
    else if version != w.nodes[id].revision then (Raised(Rejected(Conflict)), w1)
    else
      var n := Apply(w.nodes[id], patch);
      if patch.state == Some(Running) && (w.nodes[id].state == Disabled || !Runnable(w, id, n))
      then (Raised(Rejected(NotRunnable)), w1)
      else
        var n' := n.(revision := w.nodes[id].revision + 1);
        (Ok(n'), w1.(nodes := w.nodes[id := n']))
  }

  function StepPostConnection(w: World, group: GroupRef, version: nat, source: Endpoint, destination: Endpoint,
                              selected: seq<string>): (Outcome<Id>, World)
  {
    var w1 := Issue(w, PostConnection(group, version, source, destination, selected));
    if Faulty(w) then (Raised(TransportError), w1)
    else if version != 0 then (Raised(Rejected(Conflict)), w1)
    else if !GroupExists(w, group) || source.id !in w.nodes || destination.id !in w.nodes
    then (Raised(Rejected(NotFound)), w1)
    else if source.groupId != group || destination.groupId != group
         || w.nodes[source.id].group != group || w.nodes[destination.id].group != group
    then (Raised(Rejected(BadRequest)), w1)
    else if |selected| == 0 || exists k :: 0 <= k < |selected| && !Declares(w.nodes[source.id], selected[k])
    then (Raised(Rejected(BadRequest)), w1)
    else
      var c := Connection(group, source, destination, selected);
      (Ok(w.nextId), w1.(connections := w.connections[w.nextId := c], nextId := w.nextId + 1))
  }

  function StepGetStatus(w: World, group: GroupRef): (Outcome<FlowStatus>, World)
  {
    var w1 := Issue(w, GetStatus(group));
    if Faulty(w) then (Raised(TransportError), w1)
    else if !w.statusSupported || !GroupExists(w, group) then (Raised(Rejected(NotFound)), w1)
    else
      var running := set id | id in w.nodes && w.nodes[id].group == group && w.nodes[id].state == Running;
      (Ok(StatusSnapshot(group, running)), w1)
  }

  function StepGetProcessGroup(w: World, group: GroupRef): (Outcome<FlowStatus>, World)
  {
    var w1 := Issue(w, GetProcessGroup(group));
    if Faulty(w) then (Raised(TransportError), w1)
    else if !GroupExists(w, group) then (Raised(Rejected(NotFound)), w1)
    else (Ok(GroupSnapshot(group)), w1)
  }

  /** The parts of a world that no request changes. */
  predicate SameEnvironment(w: World, w': World)
  {
    w'.catalog == w.catalog && w'.faults == w.faults && w'.statusSupported == w.statusSupported
  }

  /**
   * The remote engine.  The configuration (`catalog`, `faults`,
   * `statusSupported`) is fixed; everything else changes only through the
   * request methods, each of which does exactly what its `Step*` function says.
   */
  class NifiEngine {
    const catalog: map<string, seq<string>>
    const faults: set<nat>
    const statusSupported: bool
    var groups: map<Id, ProcessGroup>
    var nodes: map<Id, Node>
    var connections: map<Id, Connection>
    var nextId: nat
    var log: seq<Request>

    function State(): World
      reads this
    {
      World(catalog, faults, statusSupported, groups, nodes, connections, nextId, log)
    }

    ghost predicate Valid()
      reads this
    {
      WellFormed(State())
    }

    constructor (catalog: map<string, seq<string>>, faults: set<nat>, statusSupported: bool)
      ensures Valid()
      ensures State() == Initial(catalog, faults, statusSupported)
    {
      this.catalog := catalog;
      this.faults := faults;
      this.statusSupported := statusSupported;
      groups, nodes, connections, nextId, log := map[], map[], map[], 0, [];
    }

    /** Make the mutable fields those of `w`. */
    method Load(w: World)
      requires SameEnvironment(State(), w)
      modifies this
      ensures State() == w
    {
      groups, nodes, connections, nextId, log := w.groups, w.nodes, w.connections, w.nextId, w.log;
    }

    method PostProcessGroupRequest(parent: GroupRef, version: nat, name: string) returns (out: Outcome<Id>)
      requires Valid()
      modifies this
      ensures Valid()
      ensures (out, State()) == StepPostProcessGroup(old(State()), parent, version, name)
    {
      var r := StepPostProcessGroup(State(), parent, version, name);
      assert SameEnvironment(State(), r.1) && WellFormed(r.1);
      Load(r.1);
      out := r.0;
    }

    method PostProcessorRequest(group: GroupRef, version: nat, ptype: string, config: Config) returns (out: Outcome<Id>)
      requires Valid()
      modifies this
      ensures Valid()
      ensures (out, State()) == StepPostProcessor(old(State()), group, version, ptype, config)
    {
      var r := StepPostProcessor(State(), group, version, ptype, config);
      assert SameEnvironment(State(), r.1) && WellFormed(r.1);
      Load(r.1);
      out := r.0;
    }

    method GetProcessorRequest(id: Id) returns (out: Outcome<Node>)
      requires Valid()
      modifies this
      ensures Valid()
      ensures (out, State()) == StepGetProcessor(old(State()), id)
    {
      ghost var w := State();
      var r := StepGetProcessor(State(), id);
      assert r.1 == Issue(w, GetProcessor(id));
      IssueKeeps(w, GetProcessor(id));
      Load(r.1);
      out := r.0;
    }

    method PutProcessorRequest(id: Id, version: nat, patch: Patch) returns (out: Outcome<Node>)
      requires Valid()
      modifies this
      ensures Valid()
      ensures (out, State()) == StepPutProcessor(old(State()), id, version, patch)
    {
      var r := StepPutProcessor(State(), id, version, patch);
      assert SameEnvironment(State(), r.1) && WellFormed(r.1);
      Load(r.1);
      out := r.0;
    }

    method PostConnectionRequest(group: GroupRef, version: nat, source: Endpoint, destination: Endpoint,
                                 selected: seq<string>) returns (out: Outcome<Id>)
      requires Valid()
      modifies this
      ensures Valid()
      ensures (out, State()) == StepPostConnection(old(State()), group, version, source, destination, selected)
    {
      var r := StepPostConnection(State(), group, version, source, destination, selected);
      assert SameEnvironment(State(), r.1) && WellFormed(r.1);
      Load(r.1);
      out := r.0;
    }

    method GetStatusRequest(group: GroupRef) returns (out: Outcome<FlowStatus>)
      requires Valid()
      modifies this
      ensures Valid()
      ensures (out, State()) == StepGetStatus(old(State()), group)
    {
      ghost var w := State();
      var r := StepGetStatus(State(), group);
      assert r.1 == Issue(w, GetStatus(group));
      IssueKeeps(w, GetStatus(group));
      Load(r.1);
      out := r.0;
    }

    method GetProcessGroupRequest(group: GroupRef) returns (out: Outcome<FlowStatus>)
      requires Valid()
      modifies this
      ensures Valid()
      ensures (out, State()) == StepGetProcessGroup(old(State()), group)
    {
      ghost var w := State();
      var r := StepGetProcessGroup(State(), group);
      assert r.1 == Issue(w, GetProcessGroup(group));
      IssueKeeps(w, GetProcessGroup(group));
      Load(r.1);
      out := r.0;
    }
  }

  // ---------------------------------------------------------------------
  // Facts about the assumed engine rules.
  // ---------------------------------------------------------------------

  /** A PUT with a revision other than the stored one is rejected and changes nothing but the log. */
  lemma StalePutRejected(w: World, id: Id, version: nat, patch: Patch)
    requires id in w.nodes && version != w.nodes[id].revision
    requires patch.id == None || patch.id == Some(id)
    ensures StepPutProcessor(w, id, version, patch).0.Raised?
    ensures !Faulty(w) ==> StepPutProcessor(w, id, version, patch).0 == Raised(Rejected(Conflict))
    ensures StepPutProcessor(w, id, version, patch).1 == Issue(w, PutProcessor(id, version, patch))
  {
  }

  /** An accepted PUT bumps the revision by exactly one and applies the patch to that node only. */
  lemma AcceptedPutBumpsRevision(w: World, id: Id, version: nat, patch: Patch)
    requires StepPutProcessor(w, id, version, patch).0.Ok?
    ensures id in w.nodes && version == w.nodes[id].revision
    ensures var w' := StepPutProcessor(w, id, version, patch).1;
      && w'.nodes == w.nodes[id := Apply(w.nodes[id], patch).(revision := version + 1)]
      && w'.groups == w.groups && w'.connections == w.connections && w'.nextId == w.nextId
  {
  }

  /** Sending a request changes neither the environment nor the engine invariant. */
  lemma IssueKeeps(w: World, req: Request)
    ensures SameEnvironment(w, Issue(w, req))
    ensures WellFormed(w) ==> WellFormed(Issue(w, req))
  {
  }

  /** A processor read is logged, changes nothing else, and answers the stored node unless it raises. */
  lemma GetProcessorFrame(w: World, id: Id)
    ensures var r := StepGetProcessor(w, id);
      && r.1 == Issue(w, GetProcessor(id))
      && (r.0.Ok? <==> !Faulty(w) && id in w.nodes)
      && (r.0.Ok? ==> r.0.value == w.nodes[id])
  {
  }

  /** A processor PUT is logged, touches only that node, and touches it only when accepted. */
  lemma PutProcessorFrame(w: World, id: Id, version: nat, patch: Patch)
    ensures var r := StepPutProcessor(w, id, version, patch);
      && r.1.log == w.log + [PutProcessor(id, version, patch)]
      && r.1.connections == w.connections && r.1.groups == w.groups && r.1.nextId == w.nextId
      && SameEnvironment(w, r.1)
      && (r.0.Raised? ==> r.1.nodes == w.nodes)
      && (r.0.Ok? ==>
            && id in w.nodes && version == w.nodes[id].revision
            && r.1.nodes == w.nodes[id := Apply(w.nodes[id], patch).(revision := version + 1)]
            && r.0.value == r.1.nodes[id])
  {
  }

  /** A connection POST is logged, changes no processor or group, and creates the connection only when accepted. */
  lemma PostConnectionFrame(w: World, group: GroupRef, version: nat, source: Endpoint, destination: Endpoint,
                            selected: seq<string>)
    ensures var r := StepPostConnection(w, group, version, source, destination, selected);
      && r.1.log == w.log + [PostConnection(group, version, source, destination, selected)]
      && r.1.nodes == w.nodes && r.1.groups == w.groups && SameEnvironment(w, r.1)
      && (r.0.Raised? ==> r.1.connections == w.connections && r.1.nextId == w.nextId)
      && (r.0.Ok? ==>
            && r.0.value == w.nextId && r.1.nextId == w.nextId + 1
            && r.1.connections == w.connections[w.nextId := Connection(group, source, destination, selected)])
  {
  }
}
