# Twilio dynamic-resource provider, modelled in Dafny

This project models the generic Pulumi dynamic-resource provider that
drives Twilio resources (TaskRouter workspaces, queues and workflows,
Studio flows, Autopilot assistants, tasks and samples) from declarations.
One declared resource is a pair `{ resource, attributes }`: `resource` is a
descriptor that the helper `getAPI` turns into a handle on a remote
collection, and `attributes` are the properties to send. The provider
answers the deployment engine's five lifecycle calls:

- `check` accepts the new inputs as they are;
- `diff` reports changes exactly when the stored and the new attributes
  are not deeply equal;
- `create` adopts the object named by a truthy `attributes.sid` (fetch,
  then update with all attributes) or else creates a new object;
- `update` rewrites object `id` with the new attributes;
- `delete` removes object `id` from the collection the stored descriptor
  names.

Every result is the cleaned remote response split in two: its `sid` goes
to `id`/`outs.sid`, everything else to `outs.info`.

Files:

- `results.dfy` — `Option`, `Result` and the error kinds (`TypeError`,
  `InvalidDescriptor`, `NotFound`).
- `json.dfy` — plain JavaScript values, truthiness, property reads, and
  the deep equality `diff` uses, proved equal to structural equality.
- `remote.dfy` — the remote system as a store from (collection, sid) to
  objects, with `fetch`, `update`, `create` and `remove` on it.
- `provider.dfy` — the five lifecycle calls as pure functions of the
  store, each returning a `Result` and the store it leaves behind.
- `lifecycle.dfy` — properties relating several calls.
- `scenarios.dfy` — declarations in the shape of the stack files: a flat
  descriptor, one and two levels of nesting, and an adopted workspace.

`getAPI` and `cleanObject(_, false)` come from a utility module that is
not part of this model; they are the two fields of `Provider.Api` and are
otherwise unconstrained. The only assumption ever made about
`cleanObject` is `Provider.KeepsSid` (it passes an object's `sid` through),
and only the lemmas that need it require it. The remote system's choice
of a new sid is modelled by `Remote.FreshSid`, which picks some sid not
in use; no property depends on which one.

The code of `cleanObject` is not part of this model. The provider
destructures `sid` out of its result (`twilioPulumiPlugin/common/index.ts`, lines 58, 62-63
and 79), so the model lets the cleaned map hold `sid`.

## Model

| member | source | states |
|---|---|---|
| `Provider.AdoptsReadsSid` | twilioPulumiPlugin/common/index.ts:54 | `create` adopts exactly when reading `attributes.sid` succeeds and yields a truthy value; null attributes make the read fail |
| `Json.IsEqualIsEquality` | twilioPulumiPlugin/common/index.ts:41 | the lodash-style deep comparison holds exactly when the two values are equal, so it is reflexive, symmetric and insensitive to key order |
| `Remote.FetchAfterUpdate` | twilioPulumiPlugin/common/index.ts:79 | fetching right after an update gives back the object the update returned |
| `Remote.FetchAfterCreate` | twilioPulumiPlugin/common/index.ts:63 | fetching the new sid right after a create gives back the object the create returned |
| `Remote.FetchAfterRemove` | twilioPulumiPlugin/common/index.ts:90 | after a remove, fetching that object fails with `NotFound` and every other fetch is unaffected |
| `Remote.UpdateItem` | twilioPulumiPlugin/common/index.ts:79 | an update fails on a missing object; otherwise only that object changes, it carries every sent attribute, keeps unsent properties and its sid, and well-formedness is kept |
| `Remote.CreateItem` | twilioPulumiPlugin/common/index.ts:63 | a create adds exactly one object under an unused sid in the given collection, holding the sent attributes plus `sid`, and leaves every other object alone |
| `Remote.RemoveItem` | twilioPulumiPlugin/common/index.ts:90 | a remove fails on a missing object; otherwise exactly that object is gone and nothing else changes |
| `Remote.FreshSid` | twilioPulumiPlugin/common/index.ts:62-63 | the sid given to a new object is not used by any stored object |
| `Remote.FreshFrom` | twilioPulumiPlugin/common/index.ts:62-63 | the search for a new sid returns a candidate outside the set in use |
| `Provider.SplitSid` | twilioPulumiPlugin/common/index.ts:62-63 | `{ sid, ...info }` puts the sid in `sid` and the rest in `info`, never `sid` in `info`, and loses nothing: rejoining gives the cleaned map back |
| `Provider.Check` | twilioPulumiPlugin/common/index.ts:15-19 | the checked inputs are exactly the new inputs; no store is read or written |
| `Provider.Diff` | twilioPulumiPlugin/common/index.ts:21-43 | changes are reported if and only if the stored and new attributes differ as values; the descriptor is not looked at and no remote call is made |
| `Provider.Create` | twilioPulumiPlugin/common/index.ts:45-71 | null attributes fail with `TypeError`; an unresolvable descriptor fails with `InvalidDescriptor`; with a truthy `sid` it succeeds iff that object exists and otherwise fails with `NotFound` from the fetch, adds nothing and rewrites only that object with all attributes; otherwise it adds exactly one object to the resolved collection; `id == outs.sid`, `outs.inputs` is the inputs, `sid` is never in `info`, and well-formedness is kept |
| `Provider.Update` | twilioPulumiPlugin/common/index.ts:73-84 | succeeds iff the descriptor resolves and `id` exists there; rewrites only that object with the new attributes; `outs.inputs` is the new inputs and `sid` is not in `info` |
| `Provider.Delete` | twilioPulumiPlugin/common/index.ts:86-92 | succeeds iff the stored descriptor resolves and `id` exists there; removes exactly that object and nothing else |
| `Lifecycle.CreateThenFetch` | twilioPulumiPlugin/common/index.ts:45-70 | right after `create`, fetching the returned id gives an object whose snapshot is exactly the persisted outputs |
| `Lifecycle.AdoptReturnsGivenSid` | twilioPulumiPlugin/common/index.ts:54-58 | adopting returns the sid the attributes named and leaves the set of remote objects as it was |
| `Lifecycle.CreateThenDeleteRestores` | twilioPulumiPlugin/common/index.ts:60-63 | on the create branch (no truthy `sid`), deleting with the id and outputs `create` returned gives back the store as it was before the create |
| `Lifecycle.AdoptThenDeleteRemoves` | twilioPulumiPlugin/common/index.ts:54-58 | after an adopt, deleting with the id and outputs `create` returned removes the adopted object, which existed before the create, so the store ends with that object gone |
| `Lifecycle.AppliedInputsShowNoChanges` | twilioPulumiPlugin/common/index.ts:41 | after `create` or `update` has applied some inputs, checking and diffing the same inputs reports no changes |
| `Lifecycle.DiffIgnoresDescriptor` | twilioPulumiPlugin/common/index.ts:25 | a change to the descriptor alone is not reported as a change |
| `Lifecycle.DeleteNeedsOnlyDescriptor` | twilioPulumiPlugin/common/index.ts:86-92 | `delete` gives the same result whatever the stored outputs hold besides the descriptor |
| `Lifecycle.DeleteTwiceFails` | twilioPulumiPlugin/common/index.ts:90 | a second delete of the same id fails with `NotFound` |
| `Scenarios.FlexWorkspaceAttributes` | src/resources/index.ts:12-18 | the Flex workspace adopts exactly when its environment-supplied sid is set and non-empty |
| `Scenarios.FlexWorkspaceAdopted` | src/resources/index.ts:12-18 | with the sid of an existing workspace, that workspace is adopted and given the callback URL, and no object is added |
| `Scenarios.FlexWorkspaceMissing` | src/resources/index.ts:12-18 | with the sid of a workspace that does not exist, `create` fails with `NotFound` |
| `Scenarios.FlexWorkspaceCreated` | src/resources/index.ts:12-18 | with the environment variable unset or empty, one new workspace is created |
| `Scenarios.TaskQueueCreated` | src/resources/index.ts:27-33 | a queue declared under a workspace becomes one new object in the collection its nested descriptor resolves to, whether or not the workspace exists |
| `Scenarios.TaskSampleLifecycle` | src/resources/index.ts:216-222 | a sample two levels down is created and then deleted through the same descriptor, leaving the store as before |

## Left out

- The Twilio client, credentials and the network: fetch, update and remove fail only when the addressed object is missing, and create never fails; rate limiting, validation rejections and network faults are not modelled.
- Promises and `async`: every call is a synchronous function of the store.
- The internals of `getAPI` and `cleanObject`: their code is not part of this model, so both are parameters, and no path-walking rule is assumed.
- The commented-out drift check in `diff`: it is disabled and its rule is not specified.
- The `Resource` class and its registration with Pulumi: it only wires the provider into the engine.
- The stack files' `pulumi.all(...).apply` combinators: the engine resolves them before the provider is called, so attributes arrive as plain values.
- `Serverless`, `FlexPlugin`, `CheckServerless` and the sound-notification Flex plugin: packaging, deployment and UI code.
- `Provider.Create`: a truthy `sid` attribute that is not a string (a number, `true`, an array or an object) is modelled as naming no remote object; the Twilio client would render it as text in the request path.
- `Remote.CreateItem`: create never fails in the model, and the store does not link a parent item to the items under it; so a create under a missing parent (a queue under a workspace that does not exist) succeeds here although the remote system rejects it, and removing a parent does not remove its children.
- `Remote.CreateItem`: the new remote object is modelled as holding exactly the sent properties plus `sid`; the real API also adds server-side properties such as the account sid, dates and URL.
- `Remote.UpdateItem`: the remote update is modelled as overwriting the sent properties and keeping the others; the real API may also derive or reject properties.
- `undefined` and floating point: an undefined property is an absent key (the engine's stored state drops them) and numbers are integers. `Inputs.attributes` cannot itself be missing or `undefined`, so the `TypeError` that reading `attributes.sid` would then throw is modelled only for `null` attributes.
