# NiFi flow deployer: a Dafny model

This project models the part of NifiFlowSmith-AI that builds a running Apache NiFi dataflow through the
NiFi REST API. It covers two files:

- The flow deployer, `deploy_flow.py`. It creates a process group and picks processor stages from
  keywords in a description, or takes them from a template. It adds those stages as processors, wires
  them with connections and does a best-effort start pass.
- The REST client functions it calls, `src/nifi_nl_builder/tools/nifi_api.py`:
  - creating groups, processors and connections;
  - choosing the relationship a connection selects;
  - the read-then-PUT state changes;
  - the read-merge-write of auto-terminated relationships;
  - the status read with its fallback;
  - the choice of `Authorization` header.

The modules:

- `Engine` (engine.dfy) is the NiFi engine, as the client sees it.
  - It is not code of the repository. It is an explicit assumption, stated in the module's header comment.
  - Each HTTP request is one `Step*` function on a `World` value, which holds the groups, processors,
    connections, id counter and request log.
  - Request number k fails in the transport exactly when k is in `faults`. This stands for every network
    or HTTP error that `_make_request` re-raises.
  - The rules: creation requires revision version 0. A PUT must carry the stored revision and bumps it. A
    PUT carrying relationships replaces the whole set. A processor only runs once each of its
    relationships is auto-terminated or routed. A connection must be posted to the group that holds both
    of its endpoints.
  - The class `NifiEngine` holds that state in fields and has one method per request.
- `NifiApi` (nifi_api.dfy) holds the client functions.
  - Each is a method on a `NifiEngine`. Its `ensures` ties the returned value and the new engine state to
    a `*Spec` function of the old state.
  - The lemmas state what the source promises about those functions.
- `StageSelector` (stage_selector.dfy) holds the keyword rules of `_create_processors_from_description`
  and the eight `_add_*` archetypes.
- `Text` (text.dfy) holds `str.lower()` and the substring test `w in s`. The substring test is proved
  equal to a slicing definition.
- `DeployFlow` (deploy_flow.dfy) holds the deployer, as the class `FlowDeployer`.
  - Each of its loops is a method proved equal to a recursive function of the engine state
    (`AddStagesFrom`, `ChainFrom`, `StartFrom`, `AddDeclsFrom`, `WireFrom`).
  - The lemmas say which requests those functions send, what they create, and what they leave unchanged.
  - The Python dictionary `processors` is a `seq<(string, Id)>`. Assigning to an existing key keeps its
    position, and a new key goes last.

Three behaviours of the code worth knowing:

- `connect` does not fail when every relationship of the source is auto-terminated. It falls back to its
  `source_port` argument (nifi_api.py:65-67).
- A raise while adding processors or posting connections ends the deployment, which returns false
  (deploy_flow.py:69-71, 275-277). What was already created stays in place. Only the start pass catches
  errors per entry, as warnings.
- `update_processor_config` does not re-read the revision before its PUT. It sends version 0
  (nifi_api.py:134).

## Model

| member | source | states |
|---|---|---|
| StageSelector.SelectStages | deploy_flow.py:76-106 | 2 to 4 stages. The first is the source chosen from the lower-cased text and the last is the destination. A transform is present iff "transform" or "convert" occurs, and a filter iff "filter" occurs |
| StageSelector.SelectStagesRoles | deploy_flow.py:79-104 | every key holds an archetype of its role: a source under "source", the transformer under "transform", the filter under "filter", a sink under "destination" |
| StageSelector.SelectStagesOrdered | deploy_flow.py:76-106 | the keys come strictly in the order source, transform, filter, destination, each at most once |
| StageSelector.SourceFollowsRules | deploy_flow.py:80-87 | the source is the first rule that fires: "file" and "read" gives GetFile, then "generate" gives GenerateFlowFile, then "http" gives ListenHTTP, else GenerateFlowFile |
| StageSelector.DestinationFollowsRules | deploy_flow.py:97-104 | the destination is the first rule that fires: "log" gives LogAttribute, then "file" and "write" gives PutFile, then "database" gives PutDatabaseRecord, else LogAttribute |
| StageSelector.FileReadTakesPrecedence | deploy_flow.py:80-81 | "file" and "read" together give the file reader whatever else occurs |
| StageSelector.LogTakesPrecedence | deploy_flow.py:97-98 | "log" anywhere gives the logger, even when "file" and "write" occur too |
| StageSelector.DefaultStages | deploy_flow.py:79-104 | a text with none of the keywords gives exactly a generator then a logger |
| StageSelector.ArchetypeSettings | deploy_flow.py:108-207 | only the file reader and the generator carry a scheduling period, "1 sec". Only the logger pre-terminates a relationship, "success". Every type is in the standard processor package |
| StageSelector.SimpleLoggingExample | deploy_flow.py:289-292 | "Generate data and log it" gives a generator then a logger |
| StageSelector.FileProcessingExample | deploy_flow.py:293-296 | "Read from file, transform data, and write to output file" gives a file reader, a transformer, then a file writer |
| StageSelector.HttpDataExample | deploy_flow.py:297-300 | "Listen for HTTP requests, filter data, and log results" gives an HTTP listener, a filter, then a logger |
| Text.Lower | deploy_flow.py:77 | the same length, with each ASCII capital lowered and every other character kept |
| Text.LowerIdempotent | deploy_flow.py:77 | the lower-cased text holds no ASCII capital, so lower-casing it again changes nothing |
| Text.LowerFixedIff | deploy_flow.py:77 | a text is its own lower-cased form iff it holds no ASCII capital |
| Text.ContainsIffOccurs | deploy_flow.py:80 | the substring test holds iff the word equals some slice of the text |
| Text.ContainsSentence | deploy_flow.py:80 | a space-free word occurs in a space-joined sentence iff it occurs in one of its words |
| Text.LowerSentence | deploy_flow.py:77 | lower-casing a sentence lower-cases each of its words |
| DeployFlow.PutThenFind | deploy_flow.py:258 | after `processors[key] = id`, `key` finds `id` and every other key finds what it found before |
| DeployFlow.PutKeys | deploy_flow.py:258 | assigning to an existing key keeps the key order. A new key is appended last |
| DeployFlow.FlowDeployer.constructor | deploy_flow.py:26-27 | the deployer holds the given template table |
| DeployFlow.FlowDeployer.AddStage | deploy_flow.py:108-207 | one `_add_*` helper: one processor creation in the group, with the archetype's type and configuration |
| DeployFlow.FlowDeployer.CreateProcessorsFromDescription | deploy_flow.py:73-106 | the selected stages are added in order until one raises. The result and the engine state are those of `AddStagesFrom` |
| DeployFlow.AddStagesSends | deploy_flow.py:73-106 | adding stages sends only processor creations. It posts no connection and changes no group, and every earlier processor is left unchanged |
| DeployFlow.AddStagesRegistry | deploy_flow.py:76-106 | without a raise, each stage is registered under its own key, in stage order, with consecutive fresh ids |
| DeployFlow.AddStagesNodes | deploy_flow.py:76-106 | without a raise, one id is used per stage. The k-th fresh id holds the k-th stage's type and configuration, in the group |
| DeployFlow.StageKeysDistinct | deploy_flow.py:76-104 | the stage keys of any description are distinct, so no dictionary entry is overwritten |
| DeployFlow.FlowDeployer.ConnectProcessors | deploy_flow.py:209-219 | connects each dictionary value to the next until a `connect` raises. The state is that of `ChainFrom` |
| DeployFlow.PairsShape | deploy_flow.py:212-216 | n ids give n - 1 pairs (none when n <= 1), and pair k joins ids[k] to ids[k + 1] |
| DeployFlow.ChainEdges | deploy_flow.py:209-219 | the chain posts a prefix of the consecutive pairs, all in the group, and all of them when nothing raised. It sends no PUT, and processors and groups are unchanged |
| DeployFlow.ConnectEdges | deploy_flow.py:218 | one `connect` posts at most the edge it was asked for, and posts it whenever it returns an id |
| DeployFlow.FlowDeployer.StartFlow | deploy_flow.py:221-236 | for each entry: auto-terminate "success" first if it is the last entry, then start it. A raise becomes that entry's report. The state is that of `StartFrom` |
| DeployFlow.StartFromReports | deploy_flow.py:226-236 | exactly one report per entry, in dictionary order, whatever raised before |
| DeployFlow.StartFromAttempts | deploy_flow.py:226-236 | every entry's processor is read even after earlier failures. PUTs go only to processors of the dictionary, and only those to the last entry carry relationships |
| DeployFlow.StartEntryRequests | deploy_flow.py:227-236 | one entry reads its processor first and PUTs only to it. Unless it is the last entry, no PUT carries relationships |
| DeployFlow.StartFromFrame | deploy_flow.py:221-236 | the start pass creates and removes nothing and posts no connection. A processor not in the dictionary is untouched |
| DeployFlow.StartFromEffect | deploy_flow.py:221-236 | one report per entry, in dictionary order, together with the frame of `StartFromFrame` |
| DeployFlow.StartFromNodes | deploy_flow.py:221-236 | the start pass keeps every processor's group, type and configuration |
| DeployFlow.StartFromRunning | deploy_flow.py:233-234 | with distinct ids, every entry reported as started is RUNNING at the end of the pass |
| DeployFlow.StartFromKeepsRelationships | deploy_flow.py:228-230 | with distinct ids, every entry but the last keeps its relationships |
| DeployFlow.StartLastSkippedOnTerminateFailure | deploy_flow.py:227-236 | when auto-terminating the last entry raises, that entry is reported with that error, no processor changes, and no request asks for RUNNING: its start is skipped |
| DeployFlow.StartFromTerminatesLast | deploy_flow.py:228-230 | with distinct ids, if the last entry is reported as started, its relationships are its old ones with "success" auto-terminated |
| DeployFlow.PostProcessGroupLogged | deploy_flow.py:52 | creating the group sends that one request under root, with version 0, and adds at most that group |
| DeployFlow.FlowDeployer.DeploySimpleFlow | deploy_flow.py:44-71 | the result and the engine state are those of `DeployStagesSpec` on the selected stages. It is true exactly when the group, every stage and every connection were created |
| DeployFlow.DeployStagesFailureStartsNothing | deploy_flow.py:50-71 | a failed deployment sends no PUT and adds at most the one new group. The partial graph stays: every group, processor and connection that existed or that the run created is still there |
| DeployFlow.DeployStagesKeepsCreated | deploy_flow.py:50-71 | failed or not, the deployment rolls nothing back: everything that existed and every object created under an id it was handed is still in the engine |
| DeployFlow.DeployStagesWiresChain | deploy_flow.py:50-67 | a successful deployment has posted exactly the chain between consecutive new processors, in stage order, in the new group |
| DeployFlow.DeployStagesCreatesProcessors | deploy_flow.py:50-67 | a successful deployment has created one processor per stage. They have consecutive ids after the group's, each has its stage's type, and all live in the new group |
| DeployFlow.FlowDeployer.DeployFromTemplate | deploy_flow.py:238-277 | the deployment as written: the state is that of `DeployTemplateSpec` with the wiring posted to root |
| DeployFlow.FlowDeployer.DeployFromTemplateInGroup | deploy_flow.py:238-277 | the corrected deployment: as above, but the wiring is posted to the new group |
| DeployFlow.FlowDeployer.DeployTemplate | deploy_flow.py:250-277 | the body once the template is found: the state is that of `TemplateSpec` |
| DeployFlow.FlowDeployer.AddDeclarations | deploy_flow.py:255-259 | the adding loop: the state is that of `AddDeclsFrom` |
| DeployFlow.FlowDeployer.WireDeclarations | deploy_flow.py:262-267 | the wiring loop: the state is that of `WireFrom` |
| DeployFlow.AddDeclsSucceeds | deploy_flow.py:255-259 | with the transport holding and every declaration named and of a known type declaring "success", the adding loop raises nothing and every registered processor lives in the group and declares "success" |
| DeployFlow.WireSucceeds | deploy_flow.py:262-267 | with the transport holding and every connection naming both ends, wiring between processors of the posting group raises nothing |
| DeployFlow.TemplateGroupDeploySucceeds | deploy_flow.py:250-273 | corrected: under the same conditions the deployment returns true, having posted exactly the resolved connections in the new group |
| DeployFlow.UnknownTemplateFails | deploy_flow.py:241-243 | an unknown template name returns false and sends no request |
| DeployFlow.TemplateFailureStartsNothing | deploy_flow.py:250-277 | a failed template deployment sends no PUT and adds at most the one new group. The partial graph stays: every group, processor and connection that existed or that the run created is still there |
| DeployFlow.TemplateKeepsCreated | deploy_flow.py:250-277 | failed or not, a template deployment rolls nothing back: everything that existed and every object it created is still in the engine |
| DeployFlow.AddDeclsSends | deploy_flow.py:255-259 | the adding loop sends only processor creations, posts no connection and leaves every earlier processor unchanged |
| DeployFlow.AddDeclsComplete | deploy_flow.py:256-258 | without a raise, every declaration had a type and a name, and each used one id |
| DeployFlow.AddDeclsNodes | deploy_flow.py:256-257 | without a raise, the k-th fresh id was created in the group from the k-th declaration, with its type and its configuration (empty when absent) |
| DeployFlow.AddDeclsLastWins | deploy_flow.py:258 | a name declared more than once is registered with the id of its last declaration |
| DeployFlow.AddDeclsKeepsOthers | deploy_flow.py:255-259 | a name no declaration uses keeps what the dictionary had for it |
| DeployFlow.AddDeclsRegistersAll | deploy_flow.py:256-258 | without a raise, every declared name is a key, and so are the old keys |
| DeployFlow.AddDeclsInGroup | deploy_flow.py:255-259 | every processor the dictionary names lives in the new group |
| DeployFlow.FindIn | deploy_flow.py:263-264 | `processors.get(name)` finds an id iff the name is a key, and then the pair is in the dictionary |
| DeployFlow.WireEdges | deploy_flow.py:262-267 | the wiring posts a prefix of the edges whose two names both resolve, in declaration order, and all of them when nothing raised. Others are skipped. It sends no PUT |
| DeployFlow.WiringEndpoints | deploy_flow.py:263-266 | every edge the wiring asks for joins two registered processors, in the posting group |
| DeployFlow.WireInRootRaises | deploy_flow.py:266 | with every registered processor outside root, wiring in root raises as soon as one declaration resolves |
| DeployFlow.TemplateBuildIds | deploy_flow.py:252-259 | after a build without a raise, the group has the next id and the declarations have the ids after it |
| DeployFlow.TemplateBuildLastWins | deploy_flow.py:255-259 | after a build, each name maps to the processor of its last declaration |
| DeployFlow.TemplateBuildInGroup | deploy_flow.py:252-259 | after a build, every registered processor lives in the new group |
| DeployFlow.TemplateRootWiringFails | deploy_flow.py:262-267 | as written, any template with a declared connection between two of its own processors fails |
| DeployFlow.TemplateRootDeployPostsNothing | deploy_flow.py:262-273 | as written, a template deployment that returns true has posted no connection |
| DeployFlow.TemplateGroupWiringConnects | deploy_flow.py:262-267 | corrected: a successful deployment has posted exactly the resolved connections, in declaration order, in the new group |
| NifiApi.Auth | src/nifi_nl_builder/tools/nifi_api.py:11-20 | Bearer iff a non-empty token is set, carrying it. Otherwise Basic iff username and password are both non-empty, carrying them. Otherwise no header |
| NifiApi.DefaultCredentials | src/nifi_nl_builder/tools/nifi_api.py:7-9 | with no variables set, the header is Basic admin/admin123 |
| NifiApi.AvailableRelationships | src/nifi_nl_builder/tools/nifi_api.py:59-63 | the loop collects the names of the relationships that are not auto-terminated, in declared order |
| NifiApi.UnterminatedEmpty | src/nifi_nl_builder/tools/nifi_api.py:59-63 | the collected list is empty iff every relationship is auto-terminated |
| NifiApi.ResolvePicksFirstUnterminated | src/nifi_nl_builder/tools/nifi_api.py:59-67 | the selected relationship is the first not auto-terminated one in declared order. If there is none, it is the `source_port` argument |
| NifiApi.ResolvedIsDeclared | src/nifi_nl_builder/tools/nifi_api.py:59-67 | when the `source_port` label is one of the node's relationships, the selected relationship always is one |
| NifiApi.MergeRelationships | src/nifi_nl_builder/tools/nifi_api.py:145-149 | the merge loop computes `MergeAutoTerminate` |
| NifiApi.MergeNoLoss | src/nifi_nl_builder/tools/nifi_api.py:145-149 | same length, order and names. Listed names become auto-terminated, and every other relationship keeps its flag |
| NifiApi.CreatePg | src/nifi_nl_builder/tools/nifi_api.py:34-38 | one group creation under the parent, with version 0 |
| NifiApi.AddProcessor | src/nifi_nl_builder/tools/nifi_api.py:40-46 | one processor creation in the group, with version 0, the type and the configuration |
| NifiApi.Connect | src/nifi_nl_builder/tools/nifi_api.py:48-86 | read source, read target, post one connection. The state is that of `ConnectSpec` |
| NifiApi.ConnectIssues | src/nifi_nl_builder/tools/nifi_api.py:48-86 | sends a prefix of the two reads and the POST. The POST selects exactly the one resolved relationship, names the group for both endpoints and carries version 0 |
| NifiApi.ConnectCreates | src/nifi_nl_builder/tools/nifi_api.py:69-86 | when an id comes back, all three requests were sent and exactly that connection was added |
| NifiApi.ConnectKeepsProcessors | src/nifi_nl_builder/tools/nifi_api.py:48-86 | processors and groups never change, and a raise creates nothing |
| NifiApi.ConnectAcrossGroupsRejected | src/nifi_nl_builder/tools/nifi_api.py:69-85 | a source outside the named group always makes `connect` raise |
| NifiApi.ConnectInGroupAccepted | src/nifi_nl_builder/tools/nifi_api.py:69-85 | two processors of the named group connect whenever the transport holds and the source declares the selected relationship |
| NifiApi.SetState | src/nifi_nl_builder/tools/nifi_api.py:93-125 | read, then a PUT of the read revision with only the id and the state. The state is that of `SetStateSpec` |
| NifiApi.StartProcessor | src/nifi_nl_builder/tools/nifi_api.py:93-108 | `SetState` with RUNNING |
| NifiApi.StopProcessor | src/nifi_nl_builder/tools/nifi_api.py:110-125 | `SetState` with STOPPED |
| NifiApi.SetStateIssues | src/nifi_nl_builder/tools/nifi_api.py:93-125 | sends the read and then a PUT of exactly the read revision, the id and the state. On success only that node's state and revision changed. On a raise no node changed |
| NifiApi.SetStateSucceeds | src/nifi_nl_builder/tools/nifi_api.py:100-107 | with the transport holding, a stop always succeeds. A start succeeds iff the node is not disabled and every relationship is terminated or routed |
| NifiApi.StartIsIdempotent | src/nifi_nl_builder/tools/nifi_api.py:93-108 | a second start after a successful one also succeeds, and the node stays RUNNING |
| NifiApi.AutoTerminateRelationships | src/nifi_nl_builder/tools/nifi_api.py:138-161 | read, merge, PUT. The state is that of `AutoTerminateSpec` |
| NifiApi.AutoTerminateIssues | src/nifi_nl_builder/tools/nifi_api.py:138-161 | the PUT carries the revision just read, the id, the read configuration and the whole merged set. On success only that node's relationships and revision changed |
| NifiApi.UpdateProcessorConfig | src/nifi_nl_builder/tools/nifi_api.py:132-136 | as written: one PUT with version 0 and only the configuration, without a read |
| NifiApi.UpdateConfigAlwaysRejected | src/nifi_nl_builder/tools/nifi_api.py:134 | as written, the update raises on every well-formed engine and changes no processor |
| NifiApi.UpdateProcessorConfigAtRevision | src/nifi_nl_builder/tools/nifi_api.py:132-136 | corrected: read the revision, then PUT it with the configuration |
| NifiApi.UpdateConfigAtRevisionAccepted | src/nifi_nl_builder/tools/nifi_api.py:132-136 | corrected: succeeds whenever the node exists and the transport holds. The node takes the configuration and the next revision |
| NifiApi.GetFlowStatus | src/nifi_nl_builder/tools/nifi_api.py:178-186 | the status read, then the group read if the status read raised. The state is that of `FlowStatusSpec` |
| NifiApi.FlowStatusFallback | src/nifi_nl_builder/tools/nifi_api.py:178-186 | the status report comes back iff the endpoint exists and the transport holds. Otherwise the group read is issued. For an existing group it raises only if that fallback read fails |

## Left out

- The HTTP transport (`requests`, `verify=False`, `raise_for_status`, the error printing in
  `_make_request`): a library and the network. Every request either returns the engine's answer or raises
  `TransportError`, as the fault set decides.
- The NiFi engine itself: it is not part of this repository. `Engine` states the rules assumed of it, and
  every property that depends on acceptance or rejection holds only under those rules.
- NifiApi.Auth: the base64 encoding of `username:password` is a library call. The model states only which
  header is chosen and what it carries.
- The `NIFI_URL` variable and the request paths: the model names each request by its kind and its group,
  not by URL.
- `target_port` of `connect`: the source never reads it.
- The response bodies: a response is modelled as the id or the node it carries. The rest of the JSON and
  the `position` fields are not modelled.
- `export_flow`, `get_processor_status`, `delete_processor`, `list_processors`, `list_process_groups`,
  `create_template` and `instantiate_template`: each is one request passed through with no logic, and the
  deployer calls none of them.
- `_load_templates`: reading JSON files from a directory is I/O. The template table is a constructor
  argument, with each template already parsed into `Template`.
- Values in a template of the wrong JSON type (a non-string name, a non-dictionary entry): a template is
  typed here, and only missing keys are modelled (as `MissingKey`).
- Every `print`, the emoji messages, `time.sleep` and `main()`'s loop. The three example descriptions are
  modelled only as the stages they select.
- The reports of the start pass: the model returns them as values instead of printing warnings.
- Concurrent edits by other clients: the engine changes only through this client's requests.
- nifi_cli.py, the Streamlit UI, run_app.py, crew.py, the CrewAI tool wrappers and the package
  `__init__` files are not part of this model. They only read arguments, print, or forward calls.
- DeployFlow.StartFromAttempts: states that every entry's processor is read, not the order of those
  reads. The order of the reports is stated by `StartFromReports`.
- `if source and target:` (deploy_flow.py:265) tests Python truthiness. The model treats every registered id as
  present, so an empty-string id would be skipped by the code but connected by the model. The engine never
  hands out an empty id, so the two agree on every id it returns.
- DeployFlow.TemplateGroupDeploySucceeds: proves success only for processor types whose relationships include
  "success", the fallback label. Types without it can still succeed when some relationship is not
  auto-terminated, but the lemma does not cover them.
- Text.Lower: lower-cases ASCII letters only. Python's `str.lower()` also maps non-ASCII letters.

## Findings

| source | as written | input that shows it | evidently intended | confidence | as-written member | corrected member |
|---|---|---|---|---|---|---|
| deploy_flow.py:266 | `connect(source, target)` omits the group, so the connection is posted to "root", while both processors were created in the new group | a template with processors "a" and "b" and a connection from "a" to "b" | `connect(source, target, pg_id)`, as `_connect_processors` does at deploy_flow.py:218 | not executed; follows from the assumed engine rule that a connection is posted to the group holding its endpoints | DeployFlow.TemplateRootWiringFails | DeployFlow.TemplateGroupDeploySucceeds |
| src/nifi_nl_builder/tools/nifi_api.py:134 | `update_processor_config` sends revision version 0 without reading the processor first | any processor created by `add_processor`, whose stored revision is at least 1, and any configuration | read the current revision first, as `start_processor` and `auto_terminate_relationships` do | not executed; follows from the assumed engine rule that a PUT must carry the stored revision | NifiApi.UpdateConfigAlwaysRejected | NifiApi.UpdateConfigAtRevisionAccepted |
