/** Resource declarations of the kind the stack files write, given to the
    provider's functions: a flat descriptor, one and two levels of nesting, and a
    workspace adopted through an environment-supplied sid. How a
    descriptor maps to a collection is left to `getAPI`, so each scenario
    takes the collection it resolves to as given. */
module Scenarios {
  import opened Results
  import opened Json
  import opened Remote
  import opened Provider
  import Lifecycle

  /** `["taskrouter", "workspaces"]` */
  function WorkspacesPath(): Value {
    Arr([Str("taskrouter"), Str("workspaces")])
  }

  /** `["taskrouter", { "workspaces": workspace }, "taskQueues"]` */
  function TaskQueuesPath(workspace: Sid): Value {
    Arr([Str("taskrouter"), Obj(map["workspaces" := Str(workspace)]), Str("taskQueues")])
  }

  /** `["autopilot", { assistants: assistant }, { tasks: task }, "samples"]` */
  function SamplesPath(assistant: Sid, task: Sid): Value {
    Arr([Str("autopilot"), Obj(map["assistants" := Str(assistant)]), Obj(map["tasks" := Str(task)]), Str("samples")])
  }

  /** The Flex workspace's attributes; `sid` comes from the environment
      and is left out of the object when the variable is unset. */
  function FlexWorkspaceAttributes(envSid: Option<string>, callbackUrl: string): (v: Value)
    ensures Adopts(v) <==> envSid.Some? && envSid.value != ""
  {
    var base := map["eventCallbackUrl" := Str(callbackUrl)];
    Obj(if envSid.Some? then base["sid" := Str(envSid.value)] else base)
  }

  /** With the environment variable set to an existing workspace, that
      workspace is adopted: no object is added and the result names it. */
  lemma FlexWorkspaceAdopted(api: Api, store: Store, c: CollectionId, wsSid: Sid, url: string)
    requires api.getApi(WorkspacesPath()) == Some(c)
    requires wsSid != "" && Address(c, wsSid) in store.objects
    requires KeepsSid(api)
    ensures var r := Create(api, store, Inputs(WorkspacesPath(), FlexWorkspaceAttributes(Some(wsSid), url)));
      && r.Ok?
      && r.value.after.objects.Keys == store.objects.Keys
      && r.value.result.id == Some(Str(wsSid))
      && r.value.after.objects[Address(c, wsSid)]["eventCallbackUrl"] == Str(url)
  {
    var inputs := Inputs(WorkspacesPath(), FlexWorkspaceAttributes(Some(wsSid), url));
    Lifecycle.AdoptReturnsGivenSid(api, store, inputs);
  }

  /** Naming a workspace that does not exist fails; nothing is created. */
  lemma FlexWorkspaceMissing(api: Api, store: Store, c: CollectionId, wsSid: Sid, url: string)
    requires api.getApi(WorkspacesPath()) == Some(c)
    requires wsSid != "" && Address(c, wsSid) !in store.objects
    ensures Create(api, store, Inputs(WorkspacesPath(), FlexWorkspaceAttributes(Some(wsSid), url))) == Err(NotFound)
  {
  }

  /** With the environment variable unset or empty, a new workspace is
      created instead. */
  lemma FlexWorkspaceCreated(api: Api, store: Store, c: CollectionId, envSid: Option<string>, url: string)
    requires api.getApi(WorkspacesPath()) == Some(c)
    requires envSid == None || envSid == Some("")
    ensures var r := Create(api, store, Inputs(WorkspacesPath(), FlexWorkspaceAttributes(envSid, url)));
      && r.Ok?
      && exists sid :: AddsOne(store, r.value.after, Address(c, sid))
  {
  }

  /** A task queue declared under a workspace lands in the collection its
      nested descriptor resolves to, as one new object. The store does not
      track parent items, so this holds whether or not the workspace exists. */
  lemma TaskQueueCreated(api: Api, store: Store, c: CollectionId, workspace: Sid)
    requires api.getApi(TaskQueuesPath(workspace)) == Some(c)
    ensures var attributes := Obj(map["targetWorkers" := Str("languages HAS \"english\""),
                                      "friendlyName" := Str("English Queue")]);
      var r := Create(api, store, Inputs(TaskQueuesPath(workspace), attributes));
      && r.Ok?
      && exists sid :: Added(store, r.value.after, Address(c, sid), attributes.fields)
  {
  }

  /** An utterance sample two levels down (assistant, then task) is
      created and then deleted through the same descriptor. */
  lemma TaskSampleLifecycle(api: Api, store: Store, c: CollectionId, assistant: Sid, task: Sid)
    requires api.getApi(SamplesPath(assistant, task)) == Some(c)
    requires KeepsSid(api)
    ensures var declared := Inputs(SamplesPath(assistant, task),
                                   Obj(map["language" := Str("en-US"), "taggedText" := Str("hey")]));
      var created := Create(api, store, declared);
      && created.Ok?
      && created.value.result.id.Some? && created.value.result.id.value.Str?
      && var id := created.value.result.id.value.s;
      && Delete(api, created.value.after, id, created.value.result.outs) == Ok(store)
  {
    var declared := Inputs(SamplesPath(assistant, task),
                           Obj(map["language" := Str("en-US"), "taggedText" := Str("hey")]));
    Lifecycle.CreateThenDeleteRestores(api, store, declared);
  }
}
