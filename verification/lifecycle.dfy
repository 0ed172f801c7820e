/** Properties that relate several provider calls: what one call leaves
    behind is what the next one sees. */
module Lifecycle {
  import opened Results
  import opened Json
  import opened Remote
  import opened Provider

  /** The sid `cleanObject` reports for an object it was given. */
  lemma CleanedSid(api: Api, o: Object, inputs: Inputs, sid: Sid)
    requires KeepsSid(api)
    requires "sid" in o && o["sid"] == Str(sid)
    ensures Snapshot(api, o, inputs).sid == Some(Str(sid))
  {
    assert "sid" in api.cleanObject(Obj(o));
  }

  /** Fetching the returned id right after `create` gives back an object
      whose snapshot is exactly the persisted outputs. */
  lemma {:induction false} CreateThenFetch(api: Api, store: Store, inputs: Inputs)
    requires KeepsSid(api)
    requires Create(api, store, inputs).Ok?
    ensures var applied := Create(api, store, inputs).value;
      && applied.result.id.Some? && applied.result.id.value.Str?
      && var a := Address(CollectionOf(api, inputs.resource), applied.result.id.value.s);
      && Fetch(applied.after, a).Ok?
      && Snapshot(api, Fetch(applied.after, a).value, inputs) == applied.result.outs
  {
    var applied := Create(api, store, inputs).value;
    var c := api.getApi(inputs.resource).value;
    if Adopts(inputs.attributes) {
      var a := Address(c, inputs.attributes.fields["sid"].s);
      CleanedSid(api, applied.after.objects[a], inputs, a.sid);
    } else {
      var sid :| && Added(store, applied.after, Address(c, sid), Fields(inputs.attributes))
                 && applied.result.outs == Snapshot(api, applied.after.objects[Address(c, sid)], inputs);
      CleanedSid(api, applied.after.objects[Address(c, sid)], inputs, sid);
    }
  }

  /** Adopting returns the sid the attributes named and adds no object. */
  lemma AdoptReturnsGivenSid(api: Api, store: Store, inputs: Inputs)
    requires KeepsSid(api)
    requires Adopts(inputs.attributes)
    requires Create(api, store, inputs).Ok?
    ensures Create(api, store, inputs).value.result.id == Some(inputs.attributes.fields["sid"])
    ensures Create(api, store, inputs).value.after.objects.Keys == store.objects.Keys
  {
    var applied := Create(api, store, inputs).value;
    var a := Address(api.getApi(inputs.resource).value, inputs.attributes.fields["sid"].s);
    CleanedSid(api, applied.after.objects[a], inputs, a.sid);
  }

  /** Deleting what `create` made, with the id and outputs it returned,
      gives back the store as it was: no object is orphaned. */
  lemma {:induction false} CreateThenDeleteRestores(api: Api, store: Store, inputs: Inputs)
    requires KeepsSid(api)
    requires !Adopts(inputs.attributes)
    requires Create(api, store, inputs).Ok?
    ensures var applied := Create(api, store, inputs).value;
      && applied.result.id.Some? && applied.result.id.value.Str?
      && Delete(api, applied.after, applied.result.id.value.s, applied.result.outs) == Ok(store)
  {
    var applied := Create(api, store, inputs).value;
    var c := api.getApi(inputs.resource).value;
    var sid :| && Added(store, applied.after, Address(c, sid), Fields(inputs.attributes))
               && applied.result.outs == Snapshot(api, applied.after.objects[Address(c, sid)], inputs);
    CleanedSid(api, applied.after.objects[Address(c, sid)], inputs, sid);
    var r := Delete(api, applied.after, sid, applied.result.outs);
    assert r.value.objects == store.objects;
  }

  /** Deleting an adopted object with the id and outputs `create` returned
      removes an object that existed before the create: the store ends
      up with one object fewer than it started with. */
  lemma AdoptThenDeleteRemoves(api: Api, store: Store, inputs: Inputs)
    requires KeepsSid(api)
    requires Adopts(inputs.attributes)
    requires Create(api, store, inputs).Ok?
    ensures var applied := Create(api, store, inputs).value;
      var a := Address(CollectionOf(api, inputs.resource), inputs.attributes.fields["sid"].s);
      && a in store.objects
      && applied.result.id == Some(Str(a.sid))
      && Delete(api, applied.after, a.sid, applied.result.outs).Ok?
      && Delete(api, applied.after, a.sid, applied.result.outs).value.objects.Keys == store.objects.Keys - {a}
  {
    AdoptReturnsGivenSid(api, store, inputs);
  }

  /** Once `create` or `update` has applied some inputs, checking and
      diffing the same inputs again reports no changes. */
  lemma AppliedInputsShowNoChanges(api: Api, store: Store, id: Sid, olds: Outs, inputs: Inputs)
    ensures Create(api, store, inputs).Ok? ==>
      !Diff(id, Create(api, store, inputs).value.result.outs, Check(olds.inputs, inputs).inputs).changes
    ensures Update(api, store, id, olds, inputs).Ok? ==>
      !Diff(id, Update(api, store, id, olds, inputs).value.result.outs, Check(olds.inputs, inputs).inputs).changes
  {
  }

  /** Changing only the descriptor is not a change `diff` reports. */
  lemma DiffIgnoresDescriptor(id: Sid, olds: Outs, descriptor: Value)
    ensures !Diff(id, olds, olds.inputs.(resource := descriptor)).changes
  {
  }

  /** `delete` reads nothing of the stored outputs but the descriptor. */
  lemma DeleteNeedsOnlyDescriptor(api: Api, store: Store, id: Sid, props: Outs)
    ensures Delete(api, store, id, props) == Delete(api, store, id, Outs(None, Inputs(props.inputs.resource, Null), map[]))
  {
  }

  /** A second `delete` of the same id fails instead of succeeding silently. */
  lemma DeleteTwiceFails(api: Api, store: Store, id: Sid, props: Outs)
    requires Delete(api, store, id, props).Ok?
    ensures Delete(api, Delete(api, store, id, props).value, id, props) == Err(NotFound)
  {
  }
}
