/** The remote REST system the provider drives, reduced to the four calls
    it makes through a collection handle: `create`, and on one item
    `fetch`, `update` and `remove`. */
module Remote {
  import opened Results
  import opened Json

  /** The identifier the remote system gives an object. */
  type Sid = string

  /** A collection handle as `getAPI` yields it, named by the path of the
      list resource it addresses (`/Workspaces/WS1/TaskQueues`, say). */
  type CollectionId = string

  /** A remote object: its named properties, `sid` among them. */
  type Object = map<string, Value>

  /** Where one remote object lives: a collection and a sid within it. */
  datatype Address = Address(collection: CollectionId, sid: Sid)

  /** Every object the remote system holds. */
  datatype Store = Store(objects: map<Address, Object>)

  /** The response of a write: the sid written, the object as the remote
      system now holds it, and the store after the write. */
  datatype Written = Written(sid: Sid, obj: Object, after: Store)

  /** Each object reports, as its `sid` property, the sid it is stored under. */
  predicate WellFormed(s: Store) {
    forall a :: a in s.objects ==> "sid" in s.objects[a] && s.objects[a]["sid"] == Str(a.sid)
  }

  /** Every sid in use, in any collection. */
  function Sids(s: Store): set<Sid> {
    set a | a in s.objects :: a.sid
  }

  /** `after` holds the same addresses as `before` and differs at most at `a`. */
  predicate OnlyEntryChanged(before: Store, after: Store, a: Address) {
    && after.objects.Keys == before.objects.Keys
    && forall b :: b in before.objects && b != a ==> after.objects[b] == before.objects[b]
  }

  /** `after` is `before` plus the one new address `a`. */
  predicate AddsOne(before: Store, after: Store, a: Address) {
    && a !in before.objects
    && after.objects.Keys == before.objects.Keys + {a}
    && forall b :: b in before.objects ==> after.objects[b] == before.objects[b]
  }

  /** `after` is `before` without address `a`, nothing else touched. */
  predicate RemovesOne(before: Store, after: Store, a: Address) {
    && a in before.objects
    && after.objects.Keys == before.objects.Keys - {a}
    && forall b :: b in after.objects ==> after.objects[b] == before.objects[b]
  }

  /** Object `o` has sid `sid` and holds every parameter that was sent,
      except `sid`, which the remote system assigns or takes from the path. */
  predicate Carries(o: Object, params: Object, sid: Sid) {
    && "sid" in o && o["sid"] == Str(sid)
    && forall k :: k in params && k != "sid" ==> k in o && o[k] == params[k]
  }

  /** `handle(sid).fetch()`. */
  function Fetch(s: Store, a: Address): Result<Object> {
    if a in s.objects then Ok(s.objects[a]) else Err(NotFound)
  }

  /** `handle(sid).update(params)`: the named parameters overwrite those
      properties, the others keep their remote values, and the sid stays
      the one in the path. */
  function UpdateItem(s: Store, a: Address, params: Object): (r: Result<Written>)
    ensures r.Ok? <==> a in s.objects
    ensures r.Err? ==> r.error == NotFound
    ensures r.Ok? ==> OnlyEntryChanged(s, r.value.after, a)
    ensures r.Ok? ==> r.value.sid == a.sid && r.value.after.objects[a] == r.value.obj
    ensures r.Ok? ==> Carries(r.value.obj, params, a.sid)
    ensures r.Ok? ==> forall k :: k in s.objects[a] && k !in params && k != "sid" ==>
      k in r.value.obj && r.value.obj[k] == s.objects[a][k]
    ensures r.Ok? && WellFormed(s) ==> WellFormed(r.value.after)
  {
    if a !in s.objects then Err(NotFound)
    else
      var o := (s.objects[a] + params)["sid" := Str(a.sid)];
      Ok(Written(a.sid, o, Store(s.objects[a := o])))
  }

  /** `handle.create(params)`: a new object under a sid not in use
      anywhere, holding the parameters sent. */
  function CreateItem(s: Store, c: CollectionId, params: Object): (r: Written)
    ensures AddsOne(s, r.after, Address(c, r.sid))
    ensures r.after.objects[Address(c, r.sid)] == r.obj
    ensures Carries(r.obj, params, r.sid)
    ensures r.obj.Keys == params.Keys + {"sid"}
    ensures WellFormed(s) ==> WellFormed(r.after)
  {
    var sid := FreshSid(s);
    var o := params["sid" := Str(sid)];
    Written(sid, o, Store(s.objects[Address(c, sid) := o]))
  }

  /** `handle(sid).remove()`. */
  function RemoveItem(s: Store, a: Address): (r: Result<Store>)
    ensures r.Ok? <==> a in s.objects
    ensures r.Err? ==> r.error == NotFound
    ensures r.Ok? ==> RemovesOne(s, r.value, a)
    ensures r.Ok? && WellFormed(s) ==> WellFormed(r.value)
  {
    if a in s.objects then Ok(Store(s.objects - {a})) else Err(NotFound)
  }

  /** Fetching right after an update gives the object the update returned. */
  lemma FetchAfterUpdate(s: Store, a: Address, params: Object)
    requires UpdateItem(s, a, params).Ok?
    ensures Fetch(UpdateItem(s, a, params).value.after, a) == Ok(UpdateItem(s, a, params).value.obj)
  {
  }

  /** Fetching the new sid right after a create gives the object the
      create returned. */
  lemma FetchAfterCreate(s: Store, c: CollectionId, params: Object)
    ensures Fetch(CreateItem(s, c, params).after, Address(c, CreateItem(s, c, params).sid))
         == Ok(CreateItem(s, c, params).obj)
  {
  }

  /** Fetching a removed object fails; every other fetch is unaffected. */
  lemma FetchAfterRemove(s: Store, a: Address, b: Address)
    requires RemoveItem(s, a).Ok?
    ensures Fetch(RemoveItem(s, a).value, a) == Err(NotFound)
    ensures b != a ==> Fetch(RemoveItem(s, a).value, b) == Fetch(s, b)
  {
  }

  /** The sid the remote system assigns to a new object. Which one it
      picks is not modelled; only that it is not already in use. */
  function FreshSid(s: Store): (sid: Sid)
    ensures sid !in Sids(s)
    ensures forall a :: a in s.objects ==> a.sid != sid
  {
    FreshFrom(Sids(s), 0)
  }

  /** The i-th candidate sid; candidates differ in length. */
  function Candidate(i: nat): (sid: Sid)
    ensures |sid| == 3 + i
  {
    "SID" + seq(i, _ => '0')
  }

  /** The first candidate from the i-th on that is not in `used`. */
  function FreshFrom(used: set<Sid>, i: nat): (sid: Sid)
    ensures sid !in used
    ensures |sid| >= 3 + i
    decreases |used|
  {
    if Candidate(i) !in used then Candidate(i)
    else FreshFrom(used - {Candidate(i)}, i + 1)
  }
}
