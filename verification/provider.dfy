/** The generic dynamic-resource provider: the five lifecycle calls the
    deployment engine makes for one declared resource, each a pure
    function of the remote store it acts on. */
module Provider {
  import opened Results
  import opened Json
  import opened Remote

  /** The declared inputs of one resource: a descriptor naming the remote
      collection and the attributes to send to it. */
  datatype Inputs = Inputs(resource: Value, attributes: Value)

  /** The persisted outputs `{ sid, inputs, info }`. */
  datatype Outs = Outs(sid: Option<Value>, inputs: Inputs, info: map<string, Value>)

  datatype CheckResult = CheckResult(inputs: Inputs)

  datatype DiffResult = DiffResult(changes: bool)

  datatype CreateResult = CreateResult(id: Option<Value>, outs: Outs)

  datatype UpdateResult = UpdateResult(outs: Outs)

  /** A call's result together with the remote store it leaves behind. */
  datatype Applied<T> = Applied(result: T, after: Store)

  /** The two helpers the provider imports from its utility module, whose
      code is not part of this model: `getAPI`, which turns a descriptor
      into a collection handle (or cannot), and `cleanObject(_, false)`,
      which turns a raw response into a plain map that may hold `sid`. */
  datatype Api = Api(getApi: Value -> Option<CollectionId>, cleanObject: Value -> map<string, Value>)

  /** `cleanObject` passes an object's `sid` property through unchanged. */
  ghost predicate KeepsSid(api: Api) {
    forall o: Object {:trigger api.cleanObject(Obj(o))} ::
      "sid" in o ==> "sid" in api.cleanObject(Obj(o)) && api.cleanObject(Obj(o))["sid"] == o["sid"]
  }

  /** `getAPI(client, resource)`. */
  function Resolve(api: Api, descriptor: Value): Result<CollectionId> {
    match api.getApi(descriptor)
    case Some(c) => Ok(c)
    case None => Err(InvalidDescriptor)
  }

  /** The collection a descriptor resolves to; meaningful when it resolves. */
  function CollectionOf(api: Api, descriptor: Value): CollectionId {
    match api.getApi(descriptor)
    case Some(c) => c
    case None => ""
  }

  /** The rest-destructuring `{ sid, ...info } = cleaned`, with the inputs
      attached: the sid goes to `sid`, everything else to `info`. */
  function SplitSid(cleaned: map<string, Value>, inputs: Inputs): (outs: Outs)
    ensures outs.inputs == inputs
    ensures "sid" !in outs.info
    ensures outs.sid.Some? <==> "sid" in cleaned
    ensures Rejoin(outs) == cleaned
  {
    Outs(if "sid" in cleaned then Some(cleaned["sid"]) else None, inputs, cleaned - {"sid"})
  }

  /** The cleaned response an output was split from. */
  function Rejoin(outs: Outs): map<string, Value> {
    if outs.sid.Some? then outs.info["sid" := outs.sid.value] else outs.info
  }

  /** The outputs persisted for remote object `o`. */
  function Snapshot(api: Api, o: Object, inputs: Inputs): Outs {
    SplitSid(api.cleanObject(Obj(o)), inputs)
  }

  /** Whether `create` adopts: `attributes.sid` is truthy. */
  predicate Adopts(attributes: Value) {
    attributes.Obj? && "sid" in attributes.fields && Truthy(attributes.fields["sid"])
  }

  /** Remote sids are strings, so a `sid` attribute that is not a string
      names no remote object. */
  function SidOf(v: Value): Result<Sid> {
    if v.Str? then Ok(v.s) else Err(NotFound)
  }

  /** `create` takes the adopt branch exactly when reading `attributes.sid`
      succeeds and gives a truthy value. */
  lemma AdoptsReadsSid(attributes: Value)
    ensures Adopts(attributes) <==>
      && Get(attributes, "sid").Ok?
      && Get(attributes, "sid").value.Some?
      && Truthy(Get(attributes, "sid").value.value)
  {
  }

  /** The object at `a` was rewritten with `params`; nothing else changed. */
  predicate Rewritten(before: Store, after: Store, a: Address, params: Object) {
    && a in before.objects
    && OnlyEntryChanged(before, after, a)
    && Carries(after.objects[a], params, a.sid)
  }

  /** A new object holding `params` was added at `a`; nothing else changed. */
  predicate Added(before: Store, after: Store, a: Address, params: Object) {
    && AddsOne(before, after, a)
    && Carries(after.objects[a], params, a.sid)
  }

  /** `check`: accepts the new inputs as they are. It takes no store, so it
      has no remote effect. */
  function Check(olds: Inputs, news: Inputs): (r: CheckResult)
    ensures r.inputs == news
  {
    CheckResult(news)
  }

  /** `diff`: changes are reported exactly when the stored attributes and
      the new ones differ as values; the descriptor plays no part, and no
      remote call is made. */
  function Diff(id: Sid, olds: Outs, news: Inputs): (r: DiffResult)
    ensures r.changes <==> olds.inputs.attributes != news.attributes
  {
    IsEqualIsEquality(olds.inputs.attributes, news.attributes);
    DiffResult(!IsEqual(olds.inputs.attributes, news.attributes))
  }

  /** The result `create` returns for remote object `o`. */
  function Created(api: Api, o: Object, inputs: Inputs): CreateResult {
    var outs := Snapshot(api, o, inputs);
    CreateResult(outs.sid, outs)
  }

  /** `create`: with a truthy `attributes.sid` it adopts that object
      (fetch, then update with all attributes); otherwise it creates a new
      object in the resolved collection. */
  function Create(api: Api, store: Store, inputs: Inputs): (r: Result<Applied<CreateResult>>)
    // failures
    ensures inputs.attributes.Null? <==> r == Err(TypeError)
    ensures !inputs.attributes.Null? && api.getApi(inputs.resource).None? ==> r == Err(InvalidDescriptor)
    ensures r.Ok? ==> api.getApi(inputs.resource).Some?
    // the shape of the result
    ensures r.Ok? ==> r.value.result.id == r.value.result.outs.sid
    ensures r.Ok? ==> r.value.result.outs.inputs == inputs
    ensures r.Ok? ==> "sid" !in r.value.result.outs.info
    ensures r.Ok? && WellFormed(store) ==> WellFormed(r.value.after)
    // adopting an existing object
    ensures Adopts(inputs.attributes) && api.getApi(inputs.resource).Some? ==>
      (r.Ok? <==> inputs.attributes.fields["sid"].Str?
                  && Address(api.getApi(inputs.resource).value, inputs.attributes.fields["sid"].s) in store.objects)
    ensures Adopts(inputs.attributes) && r.Err? ==>
      r.error == (if api.getApi(inputs.resource).None? then InvalidDescriptor else NotFound)
    ensures Adopts(inputs.attributes) && r.Ok? ==>
      var a := Address(api.getApi(inputs.resource).value, inputs.attributes.fields["sid"].s);
      && Rewritten(store, r.value.after, a, inputs.attributes.fields)
      && r.value.result.outs == Snapshot(api, r.value.after.objects[a], inputs)
    // creating a new object
    ensures !inputs.attributes.Null? && !Adopts(inputs.attributes) && api.getApi(inputs.resource).Some? ==> r.Ok?
    ensures !Adopts(inputs.attributes) && r.Ok? ==>
      exists sid ::
        && Added(store, r.value.after, Address(api.getApi(inputs.resource).value, sid), Fields(inputs.attributes))
        && r.value.result.outs == Snapshot(api, r.value.after.objects[Address(api.getApi(inputs.resource).value, sid)], inputs)
  {
    var sid :- Get(inputs.attributes, "sid");
    var c :- Resolve(api, inputs.resource);
    var params := Fields(inputs.attributes);
    if sid.Some? && Truthy(sid.value) then
      var key :- SidOf(sid.value);
      var current :- Fetch(store, Address(c, key));
      match UpdateItem(store, Address(c, key), params)
      case Ok(w) => Ok(Applied(Created(api, w.obj, inputs), w.after))
      case Err(e) => Err(e)
    else
      var w := CreateItem(store, c, params);
      Ok(Applied(Created(api, w.obj, inputs), w.after))
  }

  /** `update`: rewrites object `id` of the collection `news.resource`
      resolves to with `news.attributes`. */
  function Update(api: Api, store: Store, id: Sid, olds: Outs, news: Inputs): (r: Result<Applied<UpdateResult>>)
    ensures r.Ok? <==>
      api.getApi(news.resource).Some? && Address(api.getApi(news.resource).value, id) in store.objects
    ensures r.Err? ==> r.error == (if api.getApi(news.resource).None? then InvalidDescriptor else NotFound)
    ensures r.Ok? ==> r.value.result.outs.inputs == news
    ensures r.Ok? ==> "sid" !in r.value.result.outs.info
    ensures r.Ok? ==>
      var a := Address(api.getApi(news.resource).value, id);
      && Rewritten(store, r.value.after, a, Fields(news.attributes))
      && r.value.result.outs == Snapshot(api, r.value.after.objects[a], news)
    ensures r.Ok? && WellFormed(store) ==> WellFormed(r.value.after)
  {
    var c :- Resolve(api, news.resource);
    var w :- UpdateItem(store, Address(c, id), Fields(news.attributes));
    Ok(Applied(UpdateResult(Snapshot(api, w.obj, news)), w.after))
  }

  /** `delete`: removes object `id` of the collection the stored
      descriptor resolves to. */
  function Delete(api: Api, store: Store, id: Sid, props: Outs): (r: Result<Store>)
    ensures r.Ok? <==>
      api.getApi(props.inputs.resource).Some? && Address(api.getApi(props.inputs.resource).value, id) in store.objects
    ensures r.Err? ==> r.error == (if api.getApi(props.inputs.resource).None? then InvalidDescriptor else NotFound)
    ensures r.Ok? ==> RemovesOne(store, r.value, Address(api.getApi(props.inputs.resource).value, id))
    ensures r.Ok? && WellFormed(store) ==> WellFormed(r.value)
  {
    var c :- Resolve(api, props.inputs.resource);
    RemoveItem(store, Address(c, id))
  }
}
