/**
 * The NiFi REST client of the repository (nifi_api.py): the credential
 * header, relationship selection for a new connection, the read-merge-write
 * of auto-terminated relationships, the read-then-PUT state changes and the
 * status read with its fallback.  Each client function is a method over a
 * `NifiEngine`, proved equal to a `*Spec` function over the engine's `World`;
 * what the source promises is proved about those functions.
 */
module NifiApi {
  import opened Common
  import opened Engine

  // ---------------------------------------------------------------------
  // _auth
  // ---------------------------------------------------------------------

  /** The kind of `Authorization` header sent (the base64 encoding is not modelled). */
  datatype AuthHeader = Bearer(token: string) | Basic(username: string, password: string) | NoHeader

  /** `os.getenv(name, default)`: the variable's value when set, else the default. */
  function EnvOr(value: Option<string>, default: string): string
  {
    if value.Some? then value.value else default
  }

  /** Header choice from NIFI_TOKEN, then NIFI_USERNAME and NIFI_PASSWORD (Python truthiness). */
  function Auth(token: Option<string>, username: string, password: string): (h: AuthHeader)
    ensures h.Bearer? <==> token.Some? && token.value != ""
    ensures h.Bearer? ==> h.token == token.value
    ensures h.Basic? <==> (token.None? || token.value == "") && username != "" && password != ""
    ensures h.Basic? ==> h.username == username && h.password == password
  {
    if token.Some? && token.value != "" then Bearer(token.value)
    else if username != "" && password != "" then Basic(username, password)
    else NoHeader
  }

  /** With no token and the credential variables unset, the built-in admin credentials are sent. */
  lemma DefaultCredentials(username: Option<string>, password: Option<string>)
    requires username.None? && password.None?
    ensures Auth(None, EnvOr(username, "admin"), EnvOr(password, "admin123")) == Basic("admin", "admin123")
  {
  }

  // ---------------------------------------------------------------------
  // Relationship selection in connect
  // ---------------------------------------------------------------------

  /** Names of the relationships whose autoTerminate is false, in declared order. */
  function Unterminated(rels: seq<Relationship>): (names: seq<string>)
    ensures |names| <= |rels|
  {
    if rels == [] then []
    else
      var last := rels[|rels| - 1];
      Unterminated(rels[..|rels| - 1]) + (if last.autoTerminate == false then [last.name] else [])
  }

  lemma {:induction false} UnterminatedEmpty(rels: seq<Relationship>)
    ensures Unterminated(rels) == [] <==> forall k :: 0 <= k < |rels| ==> rels[k].autoTerminate
  {
    if rels != [] {
      var init := rels[..|rels| - 1];
      UnterminatedEmpty(init);
      assert forall k :: 0 <= k < |init| ==> init[k] == rels[k];
    }
  }

  lemma {:induction false} UnterminatedHead(rels: seq<Relationship>, k: nat)
    requires k < |rels| && !rels[k].autoTerminate
    requires forall j :: 0 <= j < k ==> rels[j].autoTerminate
    ensures |Unterminated(rels)| > 0 && Unterminated(rels)[0] == rels[k].name
  {
    var init := rels[..|rels| - 1];
    assert forall j :: 0 <= j < |init| ==> init[j] == rels[j];
    if k == |rels| - 1 {
      UnterminatedEmpty(init);
    } else {
      UnterminatedHead(init, k);
    }
  }

  /** The relationship `connect` selects: the first unterminated one, else the `source_port` argument. */
  function ResolveRelationship(rels: seq<Relationship>, sourcePort: string): string
  {
    var available := Unterminated(rels);
    if |available| > 0 then available[0] else sourcePort
  }

  /** The selection rule, both ways: first not-auto-terminated relationship in declared order, else the fallback. */
  lemma ResolvePicksFirstUnterminated(rels: seq<Relationship>, sourcePort: string)
    ensures (forall k :: 0 <= k < |rels| ==> rels[k].autoTerminate) ==> ResolveRelationship(rels, sourcePort) == sourcePort
    ensures forall k :: 0 <= k < |rels| && !rels[k].autoTerminate && (forall j :: 0 <= j < k ==> rels[j].autoTerminate)
              ==> ResolveRelationship(rels, sourcePort) == rels[k].name
  {
    UnterminatedEmpty(rels);
    forall k | 0 <= k < |rels| && !rels[k].autoTerminate && (forall j :: 0 <= j < k ==> rels[j].autoTerminate)
      ensures ResolveRelationship(rels, sourcePort) == rels[k].name
    {
      UnterminatedHead(rels, k);
    }
  }

  /** Every collected name is the name of one of the relationships. */
  lemma {:induction false} UnterminatedDeclared(rels: seq<Relationship>)
    ensures forall j :: 0 <= j < |Unterminated(rels)| ==>
      exists k :: 0 <= k < |rels| && rels[k].name == Unterminated(rels)[j]
  {
    if rels != [] {
      var init := rels[..|rels| - 1];
      var last := rels[|rels| - 1];
      UnterminatedDeclared(init);
      assert Unterminated(rels) == Unterminated(init) + (if last.autoTerminate == false then [last.name] else []);
      forall j | 0 <= j < |Unterminated(rels)|
        ensures exists k :: 0 <= k < |rels| && rels[k].name == Unterminated(rels)[j]
      {
        if j < |Unterminated(init)| {
          var k :| 0 <= k < |init| && init[k].name == Unterminated(init)[j];
          assert rels[k] == init[k];
        } else {
          assert rels[|rels| - 1].name == Unterminated(rels)[j];
        }
      }
    } else {
      assert Unterminated(rels) == [];
    }
  }

  /** When the fallback label is itself declared, the selected relationship is always one the node declares. */
  lemma ResolvedIsDeclared(n: Node, sourcePort: string)
    requires Declares(n, sourcePort)
    ensures Declares(n, ResolveRelationship(n.relationships, sourcePort))
  {
    UnterminatedDeclared(n.relationships);
  }

  /** The loop of `connect` that collects `available_relationships`. */
  method AvailableRelationships(rels: seq<Relationship>) returns (names: seq<string>)
    ensures names == Unterminated(rels)
  {
    names := [];
    for i := 0 to |rels|
      invariant names == Unterminated(rels[..i])
    {
      assert rels[..i + 1][..i] == rels[..i];
      if rels[i].autoTerminate == false {
        names := names + [rels[i].name];
      }
    }
    assert rels[..|rels|] == rels;
  }

  // ---------------------------------------------------------------------
  // Read-merge-write of auto-terminated relationships
  // ---------------------------------------------------------------------

  function MergeOne(rel: Relationship, names: seq<string>): Relationship
  {
    if rel.name in names then rel.(autoTerminate := true) else rel
  }

  /** The full relationship set with every listed name flipped to auto-terminate. */
  function MergeAutoTerminate(rels: seq<Relationship>, names: seq<string>): (merged: seq<Relationship>)
    ensures |merged| == |rels|
  {
    seq(|rels|, k requires 0 <= k < |rels| => MergeOne(rels[k], names))
  }

  /** The merge loses nothing: same length and order, listed names become true, all others keep their flag. */
  lemma MergeNoLoss(rels: seq<Relationship>, names: seq<string>)
    ensures |MergeAutoTerminate(rels, names)| == |rels|
    ensures forall k :: 0 <= k < |rels| ==> MergeAutoTerminate(rels, names)[k].name == rels[k].name
    ensures forall k :: 0 <= k < |rels| && rels[k].name in names ==> MergeAutoTerminate(rels, names)[k].autoTerminate
    ensures forall k :: 0 <= k < |rels| && rels[k].name !in names ==>
              MergeAutoTerminate(rels, names)[k].autoTerminate == rels[k].autoTerminate
  {
  }

  /** The loop of `auto_terminate_relationships` that flags each listed relationship and appends it. */
  method MergeRelationships(rels: seq<Relationship>, names: seq<string>) returns (updated: seq<Relationship>)
    ensures updated == MergeAutoTerminate(rels, names)
  {
    updated := [];
    for i := 0 to |rels|
      invariant |updated| == i
      invariant forall k :: 0 <= k < i ==> updated[k] == MergeOne(rels[k], names)
    {
      var rel := rels[i];
      if rel.name in names {
        rel := rel.(autoTerminate := true);
      }
      updated := updated + [rel];
    }
  }

  // ---------------------------------------------------------------------
  // The client functions, as functions of the engine state
  // ---------------------------------------------------------------------

  /** `connect`: read source, read target, post one connection selecting one relationship. */
  function ConnectSpec(w: World, sourceId: Id, targetId: Id, pgId: GroupRef, sourcePort: string): (Outcome<Id>, World)
  {
    var src := StepGetProcessor(w, sourceId);
    if src.0.Raised? then (Raised(src.0.error), src.1)
    else
      var dst := StepGetProcessor(src.1, targetId);
      if dst.0.Raised? then (Raised(dst.0.error), dst.1)
      else
        var port := ResolveRelationship(src.0.value.relationships, sourcePort);
        StepPostConnection(dst.1, pgId, 0, Endpoint(sourceId, pgId), Endpoint(targetId, pgId), [port])
  }

  /** `start_processor` / `stop_processor`: read, then PUT the read revision with only id and state. */
  function SetStateSpec(w: World, id: Id, state: RunState): (Outcome<Node>, World)
  {
    var current := StepGetProcessor(w, id);
    if current.0.Raised? then (Raised(current.0.error), current.1)
    else StepPutProcessor(current.1, id, current.0.value.revision, Patch(Some(id), Some(state), None, None))
  }

  /** `auto_terminate_relationships`: read, merge, PUT the read revision with config and the whole set. */
  function AutoTerminateSpec(w: World, id: Id, names: seq<string>): (Outcome<Node>, World)
  {
    var current := StepGetProcessor(w, id);
    if current.0.Raised? then (Raised(current.0.error), current.1)
    else
      var n := current.0.value;
      StepPutProcessor(current.1, id, n.revision,
                       Patch(Some(id), None, Some(n.config), Some(MergeAutoTerminate(n.relationships, names))))
  }

  /** `update_processor_config` as written: a PUT at version 0 without reading first. */
  function UpdateConfigSpec(w: World, id: Id, config: Config): (Outcome<Node>, World)
  {
    StepPutProcessor(w, id, 0, Patch(None, None, Some(config), None))
  }

  /** The evidently intended `update_processor_config`: read the revision first, as the other updates do. */
  function UpdateConfigAtRevisionSpec(w: World, id: Id, config: Config): (Outcome<Node>, World)
  {
    var current := StepGetProcessor(w, id);
    if current.0.Raised? then (Raised(current.0.error), current.1)
    else StepPutProcessor(current.1, id, current.0.value.revision, Patch(None, None, Some(config), None))
  }

  /** `get_flow_status`: the status endpoint, falling back to the group itself on any failure. */
  function FlowStatusSpec(w: World, pgId: GroupRef): (Outcome<FlowStatus>, World)
  {
    var status := StepGetStatus(w, pgId);
    if status.0.Ok? then status else StepGetProcessGroup(status.1, pgId)
  }

  // ---------------------------------------------------------------------
  // The client functions as methods on the engine
  // ---------------------------------------------------------------------

  method CreatePg(e: NifiEngine, name: string, parent: GroupRef := Root) returns (out: Outcome<Id>)
    requires e.Valid()
    modifies e
    ensures e.Valid()
    ensures (out, e.State()) == StepPostProcessGroup(old(e.State()), parent, 0, name)
  {
    out := e.PostProcessGroupRequest(parent, 0, name);
  }

  method AddProcessor(e: NifiEngine, pg: GroupRef, ptype: string, cfg: Config) returns (out: Outcome<Id>)
    requires e.Valid()
    modifies e
    ensures e.Valid()
    ensures (out, e.State()) == StepPostProcessor(old(e.State()), pg, 0, ptype, cfg)
  {
    out := e.PostProcessorRequest(pg, 0, ptype, cfg);
  }

  method Connect(e: NifiEngine, sourceId: Id, targetId: Id, pgId: GroupRef := Root, sourcePort: string := "success")
    returns (out: Outcome<Id>)
    requires e.Valid()
    modifies e
    ensures e.Valid()
    ensures (out, e.State()) == ConnectSpec(old(e.State()), sourceId, targetId, pgId, sourcePort)
  {
    var sourceProcessor := e.GetProcessorRequest(sourceId);
    if sourceProcessor.Raised? {
      return Raised(sourceProcessor.error);
    }
    var targetProcessor := e.GetProcessorRequest(targetId);
    if targetProcessor.Raised? {
      return Raised(targetProcessor.error);
    }
    var available := AvailableRelationships(sourceProcessor.value.relationships);
    var port := sourcePort;
    if |available| > 0 {
      port := available[0];
    }
    out := e.PostConnectionRequest(pgId, 0, Endpoint(sourceId, pgId), Endpoint(targetId, pgId), [port]);
  }

  method SetState(e: NifiEngine, id: Id, state: RunState) returns (out: Outcome<Node>)
    requires e.Valid()
    modifies e
    ensures e.Valid()
    ensures (out, e.State()) == SetStateSpec(old(e.State()), id, state)
  {
    var current := e.GetProcessorRequest(id);
    if current.Raised? {
      return Raised(current.error);
    }
    out := e.PutProcessorRequest(id, current.value.revision, Patch(Some(id), Some(state), None, None));
  }

  method StartProcessor(e: NifiEngine, id: Id) returns (out: Outcome<Node>)
    requires e.Valid()
    modifies e
    ensures e.Valid()
    ensures (out, e.State()) == SetStateSpec(old(e.State()), id, Running)
  {
    out := SetState(e, id, Running);
  }

  method StopProcessor(e: NifiEngine, id: Id) returns (out: Outcome<Node>)
    requires e.Valid()
    modifies e
    ensures e.Valid()
    ensures (out, e.State()) == SetStateSpec(old(e.State()), id, Stopped)
  {
    out := SetState(e, id, Stopped);
  }

  method UpdateProcessorConfig(e: NifiEngine, id: Id, config: Config) returns (out: Outcome<Node>)
    requires e.Valid()
    modifies e
    ensures e.Valid()
    ensures (out, e.State()) == UpdateConfigSpec(old(e.State()), id, config)
  {
    out := e.PutProcessorRequest(id, 0, Patch(None, None, Some(config), None));
  }

  method UpdateProcessorConfigAtRevision(e: NifiEngine, id: Id, config: Config) returns (out: Outcome<Node>)
    requires e.Valid()
    modifies e
    ensures e.Valid()
    ensures (out, e.State()) == UpdateConfigAtRevisionSpec(old(e.State()), id, config)
  {
    var current := e.GetProcessorRequest(id);
    if current.Raised? {
      return Raised(current.error);
    }
    out := e.PutProcessorRequest(id, current.value.revision, Patch(None, None, Some(config), None));
  }

  method AutoTerminateRelationships(e: NifiEngine, id: Id, names: seq<string>) returns (out: Outcome<Node>)
    requires e.Valid()
    modifies e
    ensures e.Valid()
    ensures (out, e.State()) == AutoTerminateSpec(old(e.State()), id, names)
  {
    var current := e.GetProcessorRequest(id);
    if current.Raised? {
      return Raised(current.error);
    }
    var updated := MergeRelationships(current.value.relationships, names);
    out := e.PutProcessorRequest(id, current.value.revision,
                                 Patch(Some(id), None, Some(current.value.config), Some(updated)));
  }

  method GetFlowStatus(e: NifiEngine, pgId: GroupRef := Root) returns (out: Outcome<FlowStatus>)
    requires e.Valid()
    modifies e
    ensures e.Valid()
    ensures (out, e.State()) == FlowStatusSpec(old(e.State()), pgId)
  {
    out := e.GetStatusRequest(pgId);
    if out.Raised? {
      out := e.GetProcessGroupRequest(pgId);
    }
  }

  // ---------------------------------------------------------------------
  // Properties of the client functions
  // ---------------------------------------------------------------------

  /** The requests `connect` may issue: the two reads, then the one POST. */
  function ConnectRequests(w: World, sourceId: Id, targetId: Id, pgId: GroupRef, sourcePort: string): seq<Request>
    requires sourceId in w.nodes
  {
    [GetProcessor(sourceId), GetProcessor(targetId),
     PostConnection(pgId, 0, Endpoint(sourceId, pgId), Endpoint(targetId, pgId),
                    [ResolveRelationship(w.nodes[sourceId].relationships, sourcePort)])]
  }

  /**
   * `connect` issues a prefix of its three requests and nothing else; the POST selects exactly one
   * relationship, names pg as both endpoints' group and carries version 0; if it returns an id,
   * that connection now exists and no processor changed.
   */
  lemma ConnectIssues(w: World, sourceId: Id, targetId: Id, pgId: GroupRef, sourcePort: string)
    ensures var r := ConnectSpec(w, sourceId, targetId, pgId, sourcePort);
      || r.1.log == w.log + [GetProcessor(sourceId)]
      || r.1.log == w.log + [GetProcessor(sourceId), GetProcessor(targetId)]
      || (sourceId in w.nodes && r.1.log == w.log + ConnectRequests(w, sourceId, targetId, pgId, sourcePort))
    ensures SameEnvironment(w, ConnectSpec(w, sourceId, targetId, pgId, sourcePort).1)
  {
    var src := StepGetProcessor(w, sourceId);
    if src.0.Ok? {
      var dst := StepGetProcessor(src.1, targetId);
      assert dst.1.log == w.log + [GetProcessor(sourceId), GetProcessor(targetId)];
      if dst.0.Ok? {
        var port := ResolveRelationship(src.0.value.relationships, sourcePort);
        PostConnectionLogged(dst.1, pgId, Endpoint(sourceId, pgId), Endpoint(targetId, pgId), [port]);
      }
    }
  }

  /** Whatever the engine answers, a POST of a connection is logged and changes no processor. */
  lemma PostConnectionLogged(w: World, group: GroupRef, source: Endpoint, destination: Endpoint, selected: seq<string>)
    ensures var r := StepPostConnection(w, group, 0, source, destination, selected);
      && r.1.log == w.log + [PostConnection(group, 0, source, destination, selected)]
      && r.1.nodes == w.nodes && SameEnvironment(w, r.1)
  {
  }

  /** When `connect` returns an id, all three requests were sent, that connection exists and no processor changed. */
  lemma ConnectCreates(w: World, sourceId: Id, targetId: Id, pgId: GroupRef, sourcePort: string)
    ensures var r := ConnectSpec(w, sourceId, targetId, pgId, sourcePort);
      r.0.Ok? ==>
        (sourceId in w.nodes && |r.1.log| == |w.log| + 3 && r.1.nodes == w.nodes &&
         r.1.connections == w.connections[r.0.value := Connection(pgId, Endpoint(sourceId, pgId),
           Endpoint(targetId, pgId), [ResolveRelationship(w.nodes[sourceId].relationships, sourcePort)])])
  {
    var src := StepGetProcessor(w, sourceId);
    if src.0.Ok? {
      var dst := StepGetProcessor(src.1, targetId);
      assert dst.1.nodes == w.nodes && dst.1.connections == w.connections;
    }
  }

  /** `connect` never changes a processor or a group, and when it raises it creates nothing. */
  lemma ConnectKeepsProcessors(w: World, sourceId: Id, targetId: Id, pgId: GroupRef, sourcePort: string)
    ensures var r := ConnectSpec(w, sourceId, targetId, pgId, sourcePort);
      && r.1.nodes == w.nodes && r.1.groups == w.groups
      && (r.0.Raised? ==> r.1.connections == w.connections && r.1.nextId == w.nextId)
  {
    var src := StepGetProcessor(w, sourceId);
    GetProcessorFrame(w, sourceId);
    if src.0.Ok? {
      var dst := StepGetProcessor(src.1, targetId);
      GetProcessorFrame(src.1, targetId);
      if dst.0.Ok? {
        var port := ResolveRelationship(src.0.value.relationships, sourcePort);
        PostConnectionFrame(dst.1, pgId, 0, Endpoint(sourceId, pgId), Endpoint(targetId, pgId), [port]);
      }
    }
  }

  /**
   * Connecting a processor that lives in another group than the one named in the request is always
   * refused: the engine only wires processors of the group the connection is posted to.
   */
  lemma ConnectAcrossGroupsRejected(w: World, sourceId: Id, targetId: Id, pgId: GroupRef, sourcePort: string)
    requires sourceId in w.nodes && w.nodes[sourceId].group != pgId
    ensures ConnectSpec(w, sourceId, targetId, pgId, sourcePort).0.Raised?
  {
    var src := StepGetProcessor(w, sourceId);
    if src.0.Ok? {
      var dst := StepGetProcessor(src.1, targetId);
      assert dst.1.nodes == w.nodes;
    }
  }

  /**
   * Connecting two processors of the group the connection is posted to succeeds whenever the transport
   * holds and the source declares the relationship that gets selected.
   */
  lemma ConnectInGroupAccepted(w: World, sourceId: Id, targetId: Id, pgId: GroupRef, sourcePort: string)
    requires forall k :: |w.log| <= k < |w.log| + 3 ==> k !in w.faults
    requires GroupExists(w, pgId)
    requires sourceId in w.nodes && w.nodes[sourceId].group == pgId
    requires targetId in w.nodes && w.nodes[targetId].group == pgId
    requires Declares(w.nodes[sourceId], ResolveRelationship(w.nodes[sourceId].relationships, sourcePort))
    ensures ConnectSpec(w, sourceId, targetId, pgId, sourcePort).0.Ok?
  {
    var src := StepGetProcessor(w, sourceId);
    var dst := StepGetProcessor(src.1, targetId);
    assert dst.1.nodes == w.nodes && dst.1.groups == w.groups && |dst.1.log| == |w.log| + 2;
  }

  /** `start_processor` / `stop_processor` issue the read and then a PUT of exactly the read revision, id and state. */
  lemma SetStateIssues(w: World, id: Id, state: RunState)
    ensures var r := SetStateSpec(w, id, state);
      && r.1.log[..|w.log|] == w.log
      && (r.1.log[|w.log|..] == [GetProcessor(id)] ||
          (id in w.nodes && r.1.log[|w.log|..] == [GetProcessor(id), PutProcessor(id, w.nodes[id].revision, Patch(Some(id), Some(state), None, None))]))
      && (r.0.Ok? ==>
            (id in w.nodes &&
             r.1.nodes == w.nodes[id := w.nodes[id].(state := state, revision := w.nodes[id].revision + 1)] &&
             r.0.value == r.1.nodes[id]))
      && (r.0.Raised? ==> r.1.nodes == w.nodes)
      && r.1.connections == w.connections && r.1.groups == w.groups && r.1.nextId == w.nextId
      && SameEnvironment(w, r.1)
  {
    var cur := StepGetProcessor(w, id);
    GetProcessorFrame(w, id);
    if cur.0.Ok? {
      var patch := Patch(Some(id), Some(state), None, None);
      var r := StepPutProcessor(cur.1, id, cur.0.value.revision, patch);
      PutProcessorFrame(cur.1, id, cur.0.value.revision, patch);
      assert SetStateSpec(w, id, state) == r;
      assert r.1.log == w.log + [GetProcessor(id), PutProcessor(id, w.nodes[id].revision, patch)];
      assert Apply(w.nodes[id], patch) == w.nodes[id].(state := state);
    } else {
      assert SetStateSpec(w, id, state) == (Raised(cur.0.error), cur.1);
      assert cur.1.log == w.log + [GetProcessor(id)];
    }
  }

  /** When the transport holds, a node can always be stopped, and can be started iff it is runnable. */
  lemma SetStateSucceeds(w: World, id: Id, state: RunState)
    requires |w.log| !in w.faults && |w.log| + 1 !in w.faults && id in w.nodes
    ensures SetStateSpec(w, id, state).0.Ok? <==>
      state != Running || (w.nodes[id].state != Disabled && Runnable(w, id, w.nodes[id]))
  {
  }

  /** Starting a node twice in a row: if the first start succeeds, so does the second, and the node stays RUNNING. */
  lemma StartIsIdempotent(w: World, id: Id)
    requires forall k :: |w.log| <= k < |w.log| + 4 ==> k !in w.faults
    requires SetStateSpec(w, id, Running).0.Ok?
    ensures var w1 := SetStateSpec(w, id, Running).1;
      && SetStateSpec(w1, id, Running).0.Ok?
      && SetStateSpec(w1, id, Running).1.nodes[id].state == Running
  {
    var w1 := SetStateSpec(w, id, Running).1;
    SetStateIssues(w, id, Running);
    assert |w1.log| == |w.log| + 2;
    assert w1.nodes[id].relationships == w.nodes[id].relationships;
    SetStateSucceeds(w, id, Running);
    assert Runnable(w1, id, w1.nodes[id]) by {
      forall k | 0 <= k < |w1.nodes[id].relationships| && !w1.nodes[id].relationships[k].autoTerminate
        ensures Routed(w1, id, w1.nodes[id].relationships[k].name)
      {
        assert Routed(w, id, w.nodes[id].relationships[k].name);
      }
    }
    SetStateSucceeds(w1, id, Running);
    SetStateIssues(w1, id, Running);
  }

  /**
   * `auto_terminate_relationships` reads the node and PUTs the revision just read with the whole merged set;
   * on success the stored set is the merge and nothing else about the node but its revision changed.
   */
  lemma AutoTerminateIssues(w: World, id: Id, names: seq<string>)
    ensures var r := AutoTerminateSpec(w, id, names);
      && r.1.log[..|w.log|] == w.log
      && (r.1.log[|w.log|..] == [GetProcessor(id)] ||
          (id in w.nodes && r.1.log[|w.log|..] ==
            [GetProcessor(id), PutProcessor(id, w.nodes[id].revision,
               Patch(Some(id), None, Some(w.nodes[id].config), Some(MergeAutoTerminate(w.nodes[id].relationships, names))))]))
      && (r.0.Ok? ==>
            (id in w.nodes &&
             r.1.nodes == w.nodes[id := w.nodes[id].(relationships := MergeAutoTerminate(w.nodes[id].relationships, names),
                                                   revision := w.nodes[id].revision + 1)]))
      && (r.0.Raised? ==> r.1.nodes == w.nodes)
      && r.1.connections == w.connections && r.1.groups == w.groups && r.1.nextId == w.nextId
      && SameEnvironment(w, r.1)
      && (|w.log| !in w.faults && |w.log| + 1 !in w.faults && id in w.nodes ==> r.0.Ok?)
  {
    var cur := StepGetProcessor(w, id);
    GetProcessorFrame(w, id);
    if cur.0.Ok? {
      var n := w.nodes[id];
      var merged := MergeAutoTerminate(n.relationships, names);
      var patch := Patch(Some(id), None, Some(n.config), Some(merged));
      var r := StepPutProcessor(cur.1, id, n.revision, patch);
      PutProcessorFrame(cur.1, id, n.revision, patch);
      assert AutoTerminateSpec(w, id, names) == r;
      assert r.1.log == w.log + [GetProcessor(id), PutProcessor(id, n.revision, patch)];
      assert Apply(n, patch) == n.(relationships := merged);
    } else {
      assert AutoTerminateSpec(w, id, names) == (Raised(cur.0.error), cur.1);
      assert cur.1.log == w.log + [GetProcessor(id)];
    }
  }

  /** As written, `update_processor_config` can never succeed on a well-formed engine: version 0 is always stale. */
  lemma UpdateConfigAlwaysRejected(w: World, id: Id, config: Config)
    requires WellFormed(w)
    ensures UpdateConfigSpec(w, id, config).0.Raised?
    ensures UpdateConfigSpec(w, id, config).1.nodes == w.nodes
  {
  }

  /** Reading the revision first makes the update succeed whenever the node exists and the transport holds. */
  lemma UpdateConfigAtRevisionAccepted(w: World, id: Id, config: Config)
    requires |w.log| !in w.faults && |w.log| + 1 !in w.faults && id in w.nodes
    ensures UpdateConfigAtRevisionSpec(w, id, config).0.Ok?
    ensures UpdateConfigAtRevisionSpec(w, id, config).1.nodes[id] ==
      w.nodes[id].(config := config, revision := w.nodes[id].revision + 1)
  {
  }

  /**
   * `get_flow_status` returns the status report when the status read succeeds, and otherwise the group read;
   * for an existing group it raises only if the fallback read itself fails in the transport.
   */
  lemma FlowStatusFallback(w: World, pgId: GroupRef)
    requires GroupExists(w, pgId)
    ensures var r := FlowStatusSpec(w, pgId);
      && (r.0.Ok? && r.0.value.StatusSnapshot? <==> w.statusSupported && !Faulty(w))
      && (r.0.Raised? <==> (!w.statusSupported || Faulty(w)) && |w.log| + 1 in w.faults)
      && (r.0.Ok? && r.0.value.GroupSnapshot? ==> r.1.log == w.log + [GetStatus(pgId), GetProcessGroup(pgId)])
      && r.1.nodes == w.nodes && r.1.connections == w.connections
  {
  }
}
