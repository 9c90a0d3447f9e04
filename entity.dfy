/**
 * The `Entity` base class of the framework: construction over a copied
 * default configuration, the per-entity subscription registry, notification
 * dispatch through a pool of reusable notification objects, the error
 * escalation policy, the strict/verbose/test mode flags, the key/value
 * store and the module-wide sequential id counter.
 *
 * The notification pool is a stand-in with the interface the entity uses
 * (`getOne(name, data, source)` and `recycle()`); its ghost `history`
 * records, in order, every notification issued, every delivery of a
 * notification to a callback and every recycle, so that the order of
 * these steps can be stated.
 */
module EntityModel {
  import opened JsValues

  // ---------------------------------------------------------------------
  // Callbacks, subscription records and the registry lookup
  // ---------------------------------------------------------------------

  /** What a caller-supplied callback does when it is called. */
  datatype Behaviour =
    | Returns
    | ReturnsPromise            // an async function: it returns a promise at once
    | Raises(exception: Value)  // it throws synchronously

  /**
   * A callback held in a subscription record: either the subscriber's own
   * `onNewNotification` bound to it, or a function supplied by the caller.
   */
  datatype Callback =
    | Handler(owner: Entity)
    | External(id: nat, behaviour: Behaviour)

  /** The callback throws when called. */
  predicate ThrowsWhenCalled(cb: Callback) {
    cb.External? && cb.behaviour.Raises?
  }

  /** `{subscriber, callback}` as stored in a registry set. */
  datatype Record = Record(subscriber: Entity, callback: Callback)

  /**
   * What `subscriptions[key]` yields: nothing (undefined), a value without a
   * `forEach` method (a member inherited from Object.prototype), or a set of
   * records in insertion order.
   */
  datatype Subscribers =
    | Absent
    | NotIterable(value: Value)
    | Listed(records: seq<Record>)

  /** The records a dispatch visits: none unless the value is iterable. */
  function Listing(s: Subscribers): seq<Record>
  {
    if s.Listed? then s.records else []
  }

  /** `typeof subscriptions[key]`; a `Set` is an object. */
  function TypeOfSubscribers(s: Subscribers): string {
    match s
    case Absent => "undefined"
    case NotIterable(v) => TypeOf(v)
    case Listed(_) => "object"
  }

  /** `subscriptions[key]` on the registry, a plain object. */
  function SubscribersAt(subscriptions: map<string, seq<Record>>, key: string): (s: Subscribers)
    ensures key in subscriptions <==> s.Listed?
    ensures key in subscriptions ==> s.records == subscriptions[key]
    ensures key !in subscriptions ==> (s == Absent <==> key !in INHERITED_NAMES)
    // an inherited member is a built-in, never null
    ensures s.NotIterable? ==> s.value == Builtin(key)
  {
    if key in subscriptions then Listed(subscriptions[key])
    else if Property(map[], key) != Undefined then NotIterable(Property(map[], key))
    else Absent
  }

  /**
   * The records `notify(name, ...)` visits, in order: those registered under
   * `name`, then those registered under the wildcard "all".
   */
  function Plan(subscriptions: map<string, seq<Record>>, name: string): (rs: seq<Record>)
    // inherited members of the registry contribute no records
    ensures rs == (if name in subscriptions then subscriptions[name] else [])
                  + (if "all" in subscriptions then subscriptions["all"] else [])
  {
    Listing(SubscribersAt(subscriptions, name)) + Listing(SubscribersAt(subscriptions, "all"))
  }

  /** The registry invariant that `register` keeps: one record per event name. */
  ghost predicate OneRecordPerEvent(subscriptions: map<string, seq<Record>>) {
    forall e :: e in subscriptions ==> |subscriptions[e]| == 1
  }

  // ---------------------------------------------------------------------
  // The notification pool
  // ---------------------------------------------------------------------

  /** A step in the life of pooled notifications. */
  datatype Event =
    | Issued(n: Notification)
    | Invoked(callback: Callback, n: Notification)
    | Recycled(n: Notification)

  class Pool {
    /** Every issue, delivery and recycle so far, in order. */
    ghost var history: seq<Event>

    constructor ()
      ensures history == []
    {
      history := [];
    }

    /** Hands out a live notification carrying `(name, data, source)`. */
    method GetOne(name: string, data: Value, source: Entity) returns (n: Notification)
      modifies this
      ensures fresh(n) && n.pool == this
      ensures n.name == name && n.data == data && n.source == source
      ensures n.live && n.recycles == 0
      ensures history == old(history) + [Issued(n)]
    {
      n := new Notification(this, name, data, source);
      history := history + [Issued(n)];
    }
  }

  class Notification {
    const pool: Pool
    const name: string
    const data: Value
    const source: Entity
    /** Issued and not yet recycled. */
    ghost var live: bool
    /** How many times `recycle()` has been called on this instance. */
    ghost var recycles: nat

    constructor (pool: Pool, name: string, data: Value, source: Entity)
      ensures this.pool == pool && this.name == name && this.data == data && this.source == source
      ensures live && recycles == 0
    {
      this.pool := pool;
      this.name := name;
      this.data := data;
      this.source := source;
      live := true;
      recycles := 0;
    }

    /** Returns the instance to the pool. */
    method Recycle()
      modifies this`live, this`recycles, pool
      ensures !live && recycles == old(recycles) + 1
      ensures pool.history == old(pool.history) + [Recycled(this)]
    {
      live := false;
      recycles := recycles + 1;
      pool.history := pool.history + [Recycled(this)];
    }
  }

  // ---------------------------------------------------------------------
  // What one dispatch does, as a sequence of pool events
  // ---------------------------------------------------------------------

  /**
   * The events for one record delivered with notification `n`: the issue,
   * the call, a recycle by the default handler if that is the callback, and
   * the dispatch loop's own recycle unless the callback threw.
   */
  function RecordTrace(r: Record, n: Notification): seq<Event> {
    [Issued(n), Invoked(r.callback, n)]
    + (if r.callback.Handler? then [Recycled(n)] else [])
    + (if ThrowsWhenCalled(r.callback) then [] else [Recycled(n)])
  }

  /** The events of delivering `rs[i]` with `ns[i]`, for each `i` in order. */
  function Trace(rs: seq<Record>, ns: seq<Notification>): seq<Event>
    requires |rs| == |ns|
    decreases |rs|
  {
    if rs == [] then [] else RecordTrace(rs[0], ns[0]) + Trace(rs[1..], ns[1..])
  }

  /** How often a notification delivered to `cb` is recycled. */
  function RecycleTimes(cb: Callback): nat {
    if ThrowsWhenCalled(cb) then 0 else if cb.Handler? then 2 else 1
  }

  /**
   * The number of records whose callback a dispatch over `rs` calls: all of
   * them, or the records up to and including the first one that throws.
   */
  function Reached(rs: seq<Record>): (k: nat)
    ensures k <= |rs|
    ensures forall i :: 0 <= i < k - 1 ==> !ThrowsWhenCalled(rs[i].callback)
    ensures k < |rs| ==> 0 < k && ThrowsWhenCalled(rs[k - 1].callback)
    decreases |rs|
  {
    if rs == [] then 0
    else if ThrowsWhenCalled(rs[0].callback) then 1
    else 1 + Reached(rs[1..])
  }

  /** How a dispatch over `rs` ends: with the first callback's exception, if any throws. */
  function OutcomeOf(rs: seq<Record>): (c: Completion)
    ensures c == Normal <==> forall i :: 0 <= i < |rs| ==> !ThrowsWhenCalled(rs[i].callback)
    ensures c.Throw? ==> Reached(rs) > 0 && c == Throw(rs[Reached(rs) - 1].callback.behaviour.exception)
    decreases |rs|
  {
    if rs == [] then Normal
    else if ThrowsWhenCalled(rs[0].callback) then Throw(rs[0].callback.behaviour.exception)
    else OutcomeOf(rs[1..])
  }

  /** Traces of consecutive dispatches concatenate. */
  lemma {:induction false} TraceAppend(a: seq<Record>, na: seq<Notification>, b: seq<Record>, nb: seq<Notification>)
    requires |a| == |na| && |b| == |nb|
    ensures Trace(a + b, na + nb) == Trace(a, na) + Trace(b, nb)
    decreases |a|
  {
    if a == [] {
      assert a + b == b && na + nb == nb;
    } else {
      assert (a + b)[1..] == a[1..] + b && (na + nb)[1..] == na[1..] + nb;
      TraceAppend(a[1..], na[1..], b, nb);
    }
  }

  /** Dispatching over `a` and then, if nothing threw, over `b` is one dispatch over `a + b`. */
  lemma {:induction false} DispatchAppend(a: seq<Record>, b: seq<Record>)
    ensures OutcomeOf(a + b) == if OutcomeOf(a).Throw? then OutcomeOf(a) else OutcomeOf(b)
    ensures Reached(a + b) == if OutcomeOf(a).Throw? then Reached(a) else |a| + Reached(b)
    ensures OutcomeOf(a) == Normal ==> Reached(a) == |a|
    decreases |a|
  {
    if a == [] {
      assert a + b == b;
    } else {
      assert (a + b)[0] == a[0] && (a + b)[1..] == a[1..] + b;
      DispatchAppend(a[1..], b);
    }
  }

  /** The trace of a completed dispatch over `a` followed by a dispatch over `b`. */
  lemma SequentialTraces(a: seq<Record>, na: seq<Notification>, b: seq<Record>, nb: seq<Notification>)
    requires |na| == |a| && |nb| <= |b|
    ensures Trace(a, na) + Trace(b[..|nb|], nb) == Trace((a + b)[..|na + nb|], na + nb)
  {
    assert (a + b)[..|na + nb|] == a + b[..|nb|];
    TraceAppend(a, na, b[..|nb|], nb);
  }

  /** Each notification came from `pool` and carries `(name, data, source)`. */
  ghost predicate Carry(ns: seq<Notification>, pool: Pool, name: string, data: Value, source: Entity) {
    forall i :: 0 <= i < |ns| ==>
      ns[i].pool == pool && ns[i].name == name && ns[i].data == data && ns[i].source == source
  }

  /** No notification instance appears twice. */
  ghost predicate Distinct(ns: seq<Notification>) {
    forall i, j :: 0 <= i < j < |ns| ==> ns[i] != ns[j]
  }

  lemma CarryAppend(na: seq<Notification>, nb: seq<Notification>, pool: Pool, name: string, data: Value, source: Entity)
    requires Carry(na, pool, name, data, source) && Carry(nb, pool, name, data, source)
    ensures Carry(na + nb, pool, name, data, source)
  {
    forall i | 0 <= i < |na + nb|
      ensures (na + nb)[i].pool == pool && (na + nb)[i].name == name
      ensures (na + nb)[i].data == data && (na + nb)[i].source == source
    {
      if i >= |na| {
        assert (na + nb)[i] == nb[i - |na|];
      }
    }
  }

  /**
   * After `delivered` notifications of the records `rs`, issued against a
   * history that started as `start`: the history holds their trace, and
   * the notifications are distinct and carry the event.
   */
  ghost predicate Dispatched(rs: seq<Record>, delivered: seq<Notification>, start: seq<Event>, history: seq<Event>,
                             pool: Pool, name: string, data: Value, source: Entity)
  {
    |delivered| <= |rs| &&
    history == start + Trace(rs[..|delivered|], delivered) &&
    Carry(delivered, pool, name, data, source) &&
    Distinct(delivered)
  }

  /** One more delivery extends the trace and the facts about the notifications. */
  lemma DeliveredStep(rs: seq<Record>, delivered: seq<Notification>, n: Notification, start: seq<Event>,
                      history: seq<Event>, pool: Pool, name: string, data: Value, source: Entity)
    requires |delivered| < |rs| && n !in delivered
    requires Dispatched(rs, delivered, start, history, pool, name, data, source)
    requires n.pool == pool && n.name == name && n.data == data && n.source == source
    ensures Dispatched(rs, delivered + [n], start, history + RecordTrace(rs[|delivered|], n), pool, name, data, source)
  {
    var i := |delivered|;
    TraceSnoc(rs, delivered, i, n);
    CarryAppend(delivered, [n], pool, name, data, source);
    var done, step := Trace(rs[..i], delivered), RecordTrace(rs[i], n);
    assert (start + done) + step == start + (done + step);
  }

  /** Records after the ones reached do not matter. */
  lemma DispatchedExtend(a: seq<Record>, b: seq<Record>, ns: seq<Notification>, start: seq<Event>,
                         history: seq<Event>, pool: Pool, name: string, data: Value, source: Entity)
    requires Dispatched(a, ns, start, history, pool, name, data, source)
    ensures Dispatched(a + b, ns, start, history, pool, name, data, source)
  {
    assert (a + b)[..|ns|] == a[..|ns|];
  }

  /** Dispatching `a` and then `b` is dispatching `a + b`. */
  lemma DispatchedAppend(a: seq<Record>, na: seq<Notification>, b: seq<Record>, nb: seq<Notification>,
                         start: seq<Event>, mid: seq<Event>, history: seq<Event>,
                         pool: Pool, name: string, data: Value, source: Entity)
    requires |na| == |a|
    requires Dispatched(a, na, start, mid, pool, name, data, source)
    requires Dispatched(b, nb, mid, history, pool, name, data, source)
    requires forall i, j :: 0 <= i < |na| && 0 <= j < |nb| ==> na[i] != nb[j]
    ensures Dispatched(a + b, na + nb, start, history, pool, name, data, source)
  {
    assert a[..|na|] == a;
    SequentialTraces(a, na, b, nb);
    var ta, tb := Trace(a, na), Trace(b[..|nb|], nb);
    assert (start + ta) + tb == start + (ta + tb);
    CarryAppend(na, nb, pool, name, data, source);
  }

  /** The dispatch stops at the first record whose callback throws. */
  lemma DispatchStopsAt(rs: seq<Record>, i: nat)
    requires i < |rs| && ThrowsWhenCalled(rs[i].callback)
    requires forall j :: 0 <= j < i ==> !ThrowsWhenCalled(rs[j].callback)
    ensures Reached(rs) == i + 1
    ensures OutcomeOf(rs) == Throw(rs[i].callback.behaviour.exception)
  {
  }

  /** Without a throwing callback, every record is reached. */
  lemma DispatchCompletes(rs: seq<Record>)
    requires forall j :: 0 <= j < |rs| ==> !ThrowsWhenCalled(rs[j].callback)
    ensures Reached(rs) == |rs| && OutcomeOf(rs) == Normal
  {
  }

  /** Adding one delivery to the end of a trace. */
  lemma TraceSnoc(rs: seq<Record>, ns: seq<Notification>, i: nat, n: Notification)
    requires i < |rs| && |ns| == i
    ensures Trace(rs[..i + 1], ns + [n]) == Trace(rs[..i], ns) + RecordTrace(rs[i], n)
  {
    assert rs[..i + 1] == rs[..i] + [rs[i]];
    TraceAppend(rs[..i], ns, [rs[i]], [n]);
  }

  // ---------------------------------------------------------------------
  // Configuration copy and overlay
  // ---------------------------------------------------------------------

  /**
   * The keys a JSON round trip keeps: a property whose value is undefined
   * is not serialised.
   */
  function Serialized(template: map<string, Value>): map<string, Value>
  {
    map k | k in template && template[k] != Undefined :: template[k]
  }

  /**
   * `Object.assign(base, overrides)`: every own property of `overrides`
   * replaces the one in `base`; every other property of `base` stays.
   */
  function Overlay(base: map<string, Value>, overrides: map<string, Value>): map<string, Value>
  {
    base + overrides
  }

  /**
   * The copy `JSON.parse(JSON.stringify(template))`: the same keys but
   * undefined ones, the same primitive values, and a new object with the
   * same properties for each object, no two keys sharing a copy.
   */
  method CopyConfiguration(template: map<string, Value>) returns (copy: map<string, Value>)
    ensures copy.Keys == Serialized(template).Keys
    ensures forall k :: k in copy && !template[k].Obj? ==> copy[k] == template[k]
    ensures forall k :: k in copy && template[k].Obj? ==>
      copy[k].Obj? && fresh(copy[k].o) && copy[k].o.props == template[k].o.props
    ensures forall k, k' :: k in copy && k' in copy && k != k' && copy[k].Obj? && copy[k'].Obj? ==>
      copy[k].o != copy[k'].o
  {
    copy := map[];
    var pending := Serialized(template).Keys;
    while pending != {}
      invariant pending <= Serialized(template).Keys
      invariant copy.Keys == Serialized(template).Keys - pending
      invariant forall k :: k in copy && !template[k].Obj? ==> copy[k] == template[k]
      invariant forall k :: k in copy && template[k].Obj? ==>
        copy[k].Obj? && fresh(copy[k].o) && copy[k].o.props == template[k].o.props
      invariant forall k, k' :: k in copy && k' in copy && k != k' && copy[k].Obj? && copy[k'].Obj? ==>
        copy[k].o != copy[k'].o
      decreases pending
    {
      var k :| k in pending;
      var v := template[k];
      if v.Obj? {
        var o := new JsObject(v.o.props);
        copy := copy[k := Obj(o)];
      } else {
        copy := copy[k := v];
      }
      pending := pending - {k};
    }
  }

  /**
   * `merged` is the caller's settings laid over the defaults `template`:
   * every key of either (but undefined defaults), the caller's value where
   * the caller gave one, else the default's value unless that is an object.
   */
  ghost predicate MergedFrom(merged: map<string, Value>, template: map<string, Value>, overrides: map<string, Value>) {
    && merged.Keys == Serialized(template).Keys + overrides.Keys
    && (forall k :: k in overrides ==> merged[k] == overrides[k])
    && (forall k :: k in merged && k !in overrides && !template[k].Obj? ==> merged[k] == template[k])
  }

  /**
   * `Object.assign(JSON.parse(JSON.stringify(template)), overrides)`: the
   * caller's settings over a private copy of the defaults.
   */
  method MergeSettings(template: map<string, Value>, overrides: map<string, Value>) returns (merged: map<string, Value>)
    ensures MergedFrom(merged, template, overrides)
    ensures forall k :: k in merged && k !in overrides && template[k].Obj? ==>
      merged[k].Obj? && fresh(merged[k].o) && merged[k].o.props == template[k].o.props
    ensures ConstructionThrows(template, overrides) <==>
      Property(merged, "disableSkills") == Bool(true) && Property(merged, "services") == Null
    ensures forall o :: o in ObjectsOf(Property(merged, "services")) ==> o in CallerServices(overrides) || fresh(o)
  {
    var copy := CopyConfiguration(template);
    merged := Overlay(copy, overrides);
    assert SameUpToCopies(merged, MergedSettings(template, overrides));
    PropertyUpToCopies(merged, MergedSettings(template, overrides), "disableSkills");
    PropertyUpToCopies(merged, MergedSettings(template, overrides), "services");
  }

  /** Two settings maps that differ at most in which object each object-valued key holds. */
  ghost predicate SameUpToCopies(m: map<string, Value>, m': map<string, Value>) {
    && m.Keys == m'.Keys
    && (forall k :: k in m ==> (m[k].Obj? <==> m'[k].Obj?))
    && (forall k :: k in m && !m[k].Obj? ==> m[k] == m'[k])
  }

  /** Looking up a key in such maps gives the same primitive, or an object in both. */
  lemma PropertyUpToCopies(m: map<string, Value>, m': map<string, Value>, key: string)
    requires SameUpToCopies(m, m')
    ensures Property(m, key).Obj? <==> Property(m', key).Obj?
    ensures !Property(m, key).Obj? ==> Property(m, key) == Property(m', key)
  {
  }

  /** The merged settings, up to the identity of the copied objects. */
  function MergedSettings(template: map<string, Value>, overrides: map<string, Value>): map<string, Value> {
    Overlay(Serialized(template), overrides)
  }

  /** The object a caller's `services` setting refers to, if any. */
  function CallerServices(overrides: map<string, Value>): set<JsObject> {
    var s := Property(overrides, "services");
    if s.Obj? then {s.o} else {}
  }

  /**
   * Construction throws a TypeError exactly when skills are disabled and the
   * merged `services` is null: `delete null.skill` fails.
   */
  predicate ConstructionThrows(template: map<string, Value>, overrides: map<string, Value>) {
    var m := MergedSettings(template, overrides);
    Property(m, "disableSkills") == Bool(true) && Property(m, "services") == Null
  }

  // ---------------------------------------------------------------------
  // The module-wide id counter and console lines
  // ---------------------------------------------------------------------

  /** The module-level `counter`, starting at 0 when the module loads. */
  class IdCounter {
    var value: nat

    constructor ()
      ensures value == 0
    {
      value := 0;
    }
  }

  /** The text of `entity_${n}`. */
  function EntityIdText(n: nat): string {
    "entity_" + Decimal(n)
  }

  /** A line written to the console. */
  datatype ConsoleLine =
    | Logged(prefix: Value, args: seq<Value>)   // console.log(name + ': ', ...args)
    | ErrorReport(entityName: Value, error: Value)  // console.error(`[${name}] ${error}`)

  /**
   * `typeof record.callback`: a callback of the model is either an entity's
   * `onNewNotification` or a caller's function, so the answer never depends
   * on which one it is and is never 'Promise'.
   */
  function TypeOfCallback(cb: Callback): string {
    TYPEOF_FUNCTION
  }

  /** Calls `callback(n)`: the default handler recycles `n`; a caller's callback may throw. */
  method Invoke(callback: Callback, n: Notification) returns (outcome: Completion)
    modifies n`live, n`recycles, n.pool
    ensures n.pool.history == old(n.pool.history) + [Invoked(callback, n)]
      + (if callback.Handler? then [Recycled(n)] else [])
    ensures outcome == if ThrowsWhenCalled(callback) then Throw(callback.behaviour.exception) else Normal
    ensures n.recycles == old(n.recycles) + (if callback.Handler? then 1 else 0)
    ensures n.live == (old(n.live) && !callback.Handler?)
  {
    n.pool.history := n.pool.history + [Invoked(callback, n)];
    match callback
    case Handler(owner) =>
      owner.OnNewNotification(n);
      outcome := Normal;
    case External(_, behaviour) =>
      outcome := if behaviour.Raises? then Throw(behaviour.exception) else Normal;
  }

  /** The result of `new Entity(settings)`: the entity, or the exception it threw. */
  datatype Construction = Constructed(entity: Entity) | Failed(exception: Value)

  /**
   * `new Entity(settings)` for every input, the throwing one included: the
   * defaults are copied first, the caller's settings laid over the copy, and
   * only then may `services.skill` be deleted, from whichever object
   * `services` is. A null `services` with skills disabled throws.
   */
  method Construct(template: map<string, Value>, overrides: map<string, Value>, pool: Pool)
    returns (r: Construction)
    modifies CallerServices(overrides)
    ensures r.Failed? <==> ConstructionThrows(template, overrides)
    ensures r.Failed? ==> r.exception == HOST_TYPE_ERROR && unchanged(CallerServices(overrides))
    ensures r.Constructed? ==> fresh(r.entity) && r.entity.Valid() && r.entity.pool == pool
    // the settings the entity was built from
    ensures r.Constructed? ==> MergedFrom(r.entity.settings, template, overrides)
    ensures r.Constructed? ==> r.entity.BuiltFrom(r.entity.settings)
    ensures r.Constructed? ==> forall k :: k in r.entity.settings && k !in overrides && template[k].Obj? ==>
      r.entity.settings[k].Obj? && fresh(r.entity.settings[k].o)
    // a caller's services object is shared and loses `skill` when skills are disabled
    ensures r.Constructed? ==> forall o :: o in CallerServices(overrides) ==>
      o.props == if Property(r.entity.settings, "disableSkills") == Bool(true) then old(o.props) - {"skill"} else old(o.props)
    // the default services object is copied, so only the copy loses `skill`
    ensures r.Constructed? && "services" !in overrides && "services" in template && template["services"].Obj? ==>
      var s := r.entity.services;
      s.Obj? && fresh(s.o) &&
      s.o.props == if Property(r.entity.settings, "disableSkills") == Bool(true)
                   then template["services"].o.props - {"skill"} else template["services"].o.props
  {
    SettingNamesNotInherited();
    var merged := MergeSettings(template, overrides);
    if Property(merged, "disableSkills") == Bool(true) && Property(merged, "services") == Null {
      r := Failed(HOST_TYPE_ERROR);
    } else {
      var e := new Entity(merged, pool);
      r := Constructed(e);
    }
  }

  // ---------------------------------------------------------------------
  // The entity
  // ---------------------------------------------------------------------

  class Entity {
    /** The process-wide notification pool. */
    const pool: Pool
    var name: Value
    var skills: map<string, Value>
    var data: map<string, Value>
    var ui: map<string, Value>
    var subscriptions: map<string, seq<Record>>
    var services: Value
    var strictMode: Value
    var verboseMode: Value
    /** `entity_id` and `_id`; undefined until `init_id` or `setId` runs. */
    var entityId: Value
    var id: Value
    /** The merged settings the constructor worked from (a local there). */
    ghost var settings: map<string, Value>

    /** The object invariant: no skills, at most one record per event. */
    ghost predicate Valid()
      reads this
    {
      skills == map[] && OneRecordPerEvent(subscriptions)
    }

    /**
     * The fields the constructor leaves when it does not throw, from the
     * merged settings `merged`: the name, four empty maps, no ids yet,
     * services, and either test mode or the two flags with the stored
     * `services_to_enable`.
     */
    ghost predicate BuiltFrom(merged: map<string, Value>)
      reads this
    {
      && name == Property(merged, "name")
      && skills == map[] && ui == map[] && subscriptions == map[]
      && entityId == Undefined && id == Undefined
      && services == Property(merged, "services")
      && (Property(merged, "testMode") == Bool(true) ==>
            strictMode == Bool(true) && verboseMode == Bool(true) && data == map[])
      && (Property(merged, "testMode") != Bool(true) ==>
            strictMode == Property(merged, "strictMode") && verboseMode == Property(merged, "verboseMode") &&
            data == map["services_to_enable" := services])
    }

    /**
     * `constructor(settings = {})` from the statement after the merge on, with
     * `merged` the merged settings (`Construct` models the whole call): the
     * name, the skill policy, four empty maps, services and the two flags,
     * then test mode or the stored `services_to_enable`.
     */
    constructor (merged: map<string, Value>, pool: Pool)
      requires !(Property(merged, "disableSkills") == Bool(true) && Property(merged, "services") == Null)
      modifies ObjectsOf(Property(merged, "services"))
      ensures Valid() && this.pool == pool && settings == merged
      ensures BuiltFrom(merged)
      ensures Property(merged, "services").Obj? ==>
        var o := Property(merged, "services").o;
        o.props == if Property(merged, "disableSkills") == Bool(true) then old(o.props) - {"skill"} else old(o.props)
    {
      this.pool := pool;
      settings := merged;
      name := Property(merged, "name");
      skills, data, ui, subscriptions := map[], map[], map[], map[];
      services, strictMode, verboseMode := Undefined, Undefined, Undefined;
      entityId, id := Undefined, Undefined;
      new;
      SettingNamesNotInherited();
      Setup(merged);
    }

    /**
     * The constructor's statements after the settings are merged: skills,
     * the four maps, services and the two flags, then test mode or the
     * stored `services_to_enable`.
     */
    method Setup(merged: map<string, Value>)
      requires !(Property(merged, "disableSkills") == Bool(true) && Property(merged, "services") == Null)
      modifies this`skills, this`data, this`ui, this`subscriptions, this`services, this`strictMode, this`verboseMode
      modifies ObjectsOf(Property(merged, "services"))
      ensures skills == map[] && ui == map[] && subscriptions == map[]
      ensures services == Property(merged, "services")
      ensures Property(merged, "services").Obj? ==>
        var o := Property(merged, "services").o;
        o.props == if Property(merged, "disableSkills") == Bool(true) then old(o.props) - {"skill"} else old(o.props)
      ensures Property(merged, "testMode") == Bool(true) ==>
        strictMode == Bool(true) && verboseMode == Bool(true) && data == map[]
      ensures Property(merged, "testMode") != Bool(true) ==>
        strictMode == Property(merged, "strictMode") && verboseMode == Property(merged, "verboseMode") &&
        data == map["services_to_enable" := services]
    {
      SettingNamesNotInherited();
      var outcome := InitializeSkills(merged);
      skills, data, ui, subscriptions := map[], map[], map[], map[];
      services := Property(merged, "services");
      strictMode := Property(merged, "strictMode");
      verboseMode := Property(merged, "verboseMode");
      if Property(merged, "testMode") == Bool(true) {
        EnableTestMode();
      } else {
        Store("services_to_enable", Property(merged, "services"));
      }
    }

    /** `initialize_skills`: resets `skills`, then applies the skill-disable policy. */
    method InitializeSkills(settings: map<string, Value>) returns (outcome: Completion)
      modifies this`skills, ObjectsOf(Property(settings, "services"))
      ensures skills == map[]
      ensures Property(settings, "disableSkills") != Bool(true) ==>
        outcome == Normal && unchanged(ObjectsOf(Property(settings, "services")))
      ensures Property(settings, "disableSkills") == Bool(true) ==>
        outcome == DisableSkillsOutcome(Property(settings, "services")) &&
        (Property(settings, "services").Obj? ==>
          Property(settings, "services").o.props == old(Property(settings, "services").o.props) - {"skill"})
    {
      skills := map[];
      outcome := Normal;
      if Property(settings, "disableSkills") == Bool(true) {
        outcome := DisableSkills(settings);
      }
    }

    /**
     * `disable_skills`: deletes the one key `skill` from `settings.services`
     * when that is defined; on null the delete throws.
     */
    method DisableSkills(settings: map<string, Value>) returns (outcome: Completion)
      modifies ObjectsOf(Property(settings, "services"))
      ensures outcome == DisableSkillsOutcome(Property(settings, "services"))
      ensures Property(settings, "services").Obj? ==>
        Property(settings, "services").o.props == old(Property(settings, "services").o.props) - {"skill"}
    {
      var s := Property(settings, "services");
      outcome := Normal;
      if TypeOf(s) != "undefined" {
        match s
        case Obj(o) => o.props := o.props - {"skill"};
        case Null => outcome := Throw(HOST_TYPE_ERROR);
        case _ =>
      }
    }

    /** `init_id`: takes the next counter value for `entity_id`; see the note on `_id`. */
    method InitId(settings: map<string, Value>, counter: IdCounter)
      modifies this`entityId, this`id, counter
      ensures counter.value == old(counter.value) + 1
      ensures entityId == Str(EntityIdText(counter.value))
      ensures Property(settings, "_id") == Undefined ==> id == Undefined
      ensures Property(settings, "_id") != Undefined ==> id == entityId
    {
      counter.value := counter.value + 1;
      entityId := Str(EntityIdText(counter.value));
      if TypeOf(Property(settings, "_id")) == "undefined" {
        id := Property(settings, "_id");
      } else {
        id := entityId;
      }
    }

    /**
     * `register`: the test `typeof subscription !== Set` compares a string
     * with a function and always holds, so a new set replaces whatever was
     * registered under `eventName` before the record is added.
     */
    method Register(subscriber: Entity, eventName: string, callback: Callback)
      requires Valid()
      modifies this`subscriptions
      ensures Valid()
      ensures subscriptions == old(subscriptions)[eventName := [Record(subscriber, callback)]]
    {
      var subscription := SubscribersAt(subscriptions, eventName);
      var records := Listing(subscription);
      if Str(TypeOfSubscribers(subscription)) != SET_CONSTRUCTOR {
        records := [];
        subscriptions := subscriptions[eventName := records];
      }
      // the test above always holds, so the set is the new empty one
      assert records == [];
      records := records + [Record(subscriber, callback)];
      assert records == [Record(subscriber, callback)];
      subscriptions := subscriptions[eventName := records];
    }

    /**
     * `subscribeTo(observable, eventName = 'all', callback = null)`: registers
     * this entity on `observable`'s registry; without a callback, with this
     * entity's own `onNewNotification`.
     */
    method SubscribeTo(observable: Entity, eventName: Option<string>, callback: Option<Callback>)
      requires observable.Valid()
      modifies observable`subscriptions
      ensures observable.Valid()
      ensures observable.subscriptions ==
        old(observable.subscriptions)[eventName.GetOr("all") := [Record(this, callback.GetOr(Handler(this)))]]
      ensures observable != this ==> subscriptions == old(subscriptions)
    {
      var cb := if callback.None? then Handler(this) else callback.value;
      observable.Register(this, eventName.GetOr("all"), cb);
    }

    /** The default handler: reads the name, then recycles the notification. */
    method OnNewNotification(notification: Notification)
      modifies notification`live, notification`recycles, notification.pool
      ensures !notification.live && notification.recycles == old(notification.recycles) + 1
      ensures notification.pool.history == old(notification.pool.history) + [Recycled(notification)]
    {
      var notificationName := notification.name;
      notification.Recycle();
    }

    /**
     * `sendNotificationToSubscribers`: for each record in order, takes a
     * notification from the pool, calls the callback with it and recycles it
     * once the call returns. A call that throws ends the loop, and that
     * notification is never recycled by the loop. A null `subscribers`
     * passes the `typeof` test and throws when its `forEach` is read.
     */
    method SendNotificationToSubscribers(subscribers: Subscribers, name: string, data: Value)
      returns (outcome: Completion, ghost delivered: seq<Notification>)
      modifies pool
      ensures subscribers == NotIterable(Null) ==>
        outcome == Throw(HOST_TYPE_ERROR) && delivered == [] && pool.history == old(pool.history)
      ensures subscribers != NotIterable(Null) ==>
        |delivered| == Reached(Listing(subscribers)) && outcome == OutcomeOf(Listing(subscribers))
      ensures forall i :: 0 <= i < |delivered| ==> fresh(delivered[i])
      ensures Dispatched(Listing(subscribers), delivered, old(pool.history), pool.history, pool, name, data, this)
    {
      outcome := Normal;
      delivered := [];
      if TypeOfSubscribers(subscribers) != "undefined" {
        match subscribers
        case Listed(records) =>
          outcome, delivered := SendEach(records, name, data);
        case NotIterable(v) =>
          if v == Null {
            outcome := Throw(HOST_TYPE_ERROR);
          }
        case Absent =>
      }
    }

    /** The `forEach` over a registered set of records, in insertion order. */
    method SendEach(rs: seq<Record>, name: string, data: Value)
      returns (outcome: Completion, ghost delivered: seq<Notification>)
      modifies pool
      ensures |delivered| == Reached(rs) && outcome == OutcomeOf(rs)
      ensures forall i :: 0 <= i < |delivered| ==> fresh(delivered[i])
      ensures Dispatched(rs, delivered, old(pool.history), pool.history, pool, name, data, this)
    {
      outcome := Normal;
      delivered := [];
      var i := 0;
      while i < |rs|
        invariant 0 <= i <= |rs| && |delivered| == i && outcome == Normal
        invariant forall j :: 0 <= j < i ==> !ThrowsWhenCalled(rs[j].callback)
        invariant forall j :: 0 <= j < i ==> fresh(delivered[j])
        invariant Dispatched(rs, delivered, old(pool.history), pool.history, pool, name, data, this)
      {
        ghost var n;
        outcome, n := DeliverNext(rs, i, old(pool.history), delivered, name, data);
        delivered := delivered + [n];
        if outcome.Throw? {
          DispatchStopsAt(rs, i);
          return;
        }
        i := i + 1;
      }
      DispatchCompletes(rs);
      assert rs[..i] == rs;
    }

    /**
     * One turn of the `forEach` in `sendNotificationToSubscribers`: delivers
     * `rs[i]` after the notifications `delivered` of the earlier turns.
     */
    method DeliverNext(rs: seq<Record>, i: nat, ghost start: seq<Event>, ghost delivered: seq<Notification>,
                       name: string, data: Value)
      returns (outcome: Completion, ghost n: Notification)
      requires i < |rs| && |delivered| == i
      requires Dispatched(rs, delivered, start, pool.history, pool, name, data, this)
      modifies pool
      ensures fresh(n)
      ensures Dispatched(rs, delivered + [n], start, pool.history, pool, name, data, this)
      ensures outcome == if ThrowsWhenCalled(rs[i].callback) then Throw(rs[i].callback.behaviour.exception) else Normal
    {
      var notification;
      outcome, notification := Deliver(rs[i], name, data);
      DeliveredStep(rs, delivered, notification, start, old(pool.history), pool, name, data, this);
      n := notification;
    }

    /**
     * The body of the `forEach` in `sendNotificationToSubscribers`, for one
     * record: take a notification, call the callback, recycle after it returns.
     */
    method Deliver(record: Record, name: string, data: Value) returns (outcome: Completion, n: Notification)
      modifies pool
      ensures fresh(n) && n.pool == pool && n.name == name && n.data == data && n.source == this
      ensures n.recycles == RecycleTimes(record.callback) && n.live == (RecycleTimes(record.callback) == 0)
      ensures pool.history == old(pool.history) + RecordTrace(record, n)
      ensures outcome == if ThrowsWhenCalled(record.callback) then Throw(record.callback.behaviour.exception) else Normal
    {
      n := pool.GetOne(name, data, this);
      if TypeOfCallback(record.callback) == "Promise" {
        // The asynchronous branch, which recycles once the promise settles,
        // cannot run: `typeof` never yields "Promise".
        assert false;
      }
      outcome := Invoke(record.callback, n);
      if outcome.Throw? {
        return;
      }
      n.Recycle();
    }

    /**
     * `notify(name, data = {})`: dispatches to the records under `name`, then
     * to those under "all". The returned `payload` is the data every
     * notification carried.
     */
    method Notify(name: string, data: Value)
      returns (outcome: Completion, ghost delivered: seq<Notification>, ghost payload: Value)
      modifies pool
      ensures data != Undefined ==> payload == data
      ensures data == Undefined ==> payload.Obj? && fresh(payload.o) && payload.o.props == map[]
      ensures |delivered| == Reached(Plan(subscriptions, name)) && outcome == OutcomeOf(Plan(subscriptions, name))
      ensures forall i :: 0 <= i < |delivered| ==> fresh(delivered[i])
      ensures Dispatched(Plan(subscriptions, name), delivered, old(pool.history), pool.history, pool, name, payload, this)
    {
      var value := data;
      if data == Undefined {
        var empty := new JsObject(map[]);
        value := Obj(empty);
      }
      payload := value;
      outcome, delivered := Broadcast(name, value);
    }

    /**
     * The two dispatches of `notify`: to the records under the event's name,
     * then to those under "all".
     */
    method Broadcast(name: string, data: Value)
      returns (outcome: Completion, ghost delivered: seq<Notification>)
      modifies pool
      ensures |delivered| == Reached(Plan(subscriptions, name)) && outcome == OutcomeOf(Plan(subscriptions, name))
      ensures forall i :: 0 <= i < |delivered| ==> fresh(delivered[i])
      ensures Dispatched(Plan(subscriptions, name), delivered, old(pool.history), pool.history, pool, name, data, this)
    {
      var named, wildcard := SubscribersAt(subscriptions, name), SubscribersAt(subscriptions, "all");
      ghost var a, b := Listing(named), Listing(wildcard);
      assert named != NotIterable(Null) && wildcard != NotIterable(Null);
      assert Plan(subscriptions, name) == a + b;
      DispatchAppend(a, b);
      ghost var first;
      outcome, first := SendNotificationToSubscribers(named, name, data);
      if outcome.Throw? {
        DispatchedExtend(a, b, first, old(pool.history), pool.history, pool, name, data, this);
        delivered := first;
        return;
      }
      ghost var mid := pool.history;
      ghost var second;
      outcome, second := SendNotificationToSubscribers(wildcard, name, data);
      DispatchedAppend(a, first, b, second, old(pool.history), mid, pool.history, pool, name, data, this);
      delivered := first + second;
    }

    /**
     * `notifyError(error, throwError = true)`: always writes the error line;
     * throws when `throwError === true` or strict mode is on, rethrowing an
     * Error instance and wrapping anything else in `new Error(...)`.
     */
    method NotifyError(error: Value, throwError: Value) returns (line: ConsoleLine, outcome: Completion)
      ensures line == ErrorReport(name, error)
      ensures outcome.Throw? <==> throwError == Undefined || throwError == Bool(true) || strictMode == Bool(true)
      ensures outcome.Throw? && error.ErrorObj? ==> outcome.exception == error
      ensures outcome.Throw? && !error.ErrorObj? ==> outcome.exception == ErrorObj(PlainError, error)
    {
      line := ErrorReport(name, error);
      var shouldThrow := if throwError == Undefined then Bool(true) else throwError;
      if shouldThrow == Bool(true) || strictMode == Bool(true) {
        if error.ErrorObj? {
          outcome := Throw(error);
        } else {
          outcome := Throw(ErrorObj(PlainError, error));
        }
      } else {
        outcome := Normal;
      }
    }

    /** `debug(...args)`: two log lines when verbose mode is truthy, none otherwise. */
    method Debug(args: seq<Value>) returns (lines: seq<ConsoleLine>)
      ensures Truthy(verboseMode) ==> lines == [Logged(name, [Str("debug")]), Logged(name, args)]
      ensures !Truthy(verboseMode) ==> lines == []
    {
      lines := [];
      if Truthy(verboseMode) {
        lines := [Logged(name, [Str("debug")]), Logged(name, args)];
      }
    }

    method SetName(name: Value)
      modifies this`name
      ensures this.name == name
    {
      this.name := name;
    }

    method SetId(id: Value)
      modifies this`id
      ensures this.id == id
    {
      this.id := id;
    }

    /**
     * `setService`: writes into the `services` object, which the caller's
     * settings and `data.services_to_enable` may share; on undefined, null or
     * a primitive the write throws a TypeError.
     */
    method SetService(serviceName: string, serviceInstance: Value) returns (outcome: Completion)
      modifies ObjectsOf(services)
      ensures services.Obj? ==>
        services.o.props == old(services.o.props)[serviceName := serviceInstance] && outcome == Normal
      ensures outcome == SetServiceOutcome(services)
    {
      outcome := SetServiceOutcome(services);
      if services.Obj? {
        services.o.props := services.o.props[serviceName := serviceInstance];
      }
    }

    method EnableStrictMode()
      modifies this`strictMode
      ensures strictMode == Bool(true)
    {
      strictMode := Bool(true);
    }

    method DisableStrictMode()
      modifies this`strictMode
      ensures strictMode == Bool(false)
    {
      strictMode := Bool(false);
    }

    method DisableVerboseMode()
      modifies this`verboseMode
      ensures verboseMode == Bool(false)
    {
      verboseMode := Bool(false);
    }

    method EnableVerboseMode()
      modifies this`verboseMode
      ensures verboseMode == Bool(true)
    {
      verboseMode := Bool(true);
    }

    method EnableTestMode()
      modifies this`strictMode, this`verboseMode
      ensures strictMode == Bool(true) && verboseMode == Bool(true)
    {
      EnableStrictMode();
      EnableVerboseMode();
    }

    method DisableTestMode()
      modifies this`strictMode, this`verboseMode
      ensures strictMode == Bool(false) && verboseMode == Bool(false)
    {
      DisableStrictMode();
      DisableVerboseMode();
    }

    /** `store(attributeName, attributeValue)`: `get` then yields the value; other keys keep theirs. */
    method Store(attributeName: string, attributeValue: Value)
      modifies this`data
      ensures data == old(data)[attributeName := attributeValue]
      ensures Get(attributeName) == attributeValue
      ensures forall k :: k != attributeName ==> Get(k) == old(Get(k))
    {
      data := data[attributeName := attributeValue];
    }

    /** `get(attributeName)`: the stored value, else an inherited member, else undefined. */
    function Get(attributeName: string): (v: Value)
      reads this
      ensures attributeName in data ==> v == data[attributeName]
      ensures attributeName !in data ==> (v == Undefined <==> attributeName !in INHERITED_NAMES)
    {
      Property(data, attributeName)
    }

    /** `getData(propertyName)`: the same lookup as `get`. */
    function GetData(propertyName: string): (v: Value)
      reads this
      ensures v == Get(propertyName)
    {
      Property(data, propertyName)
    }

    /**
     * `hasSkill(skillName)`: whether `skills[skillName]` is defined. With no
     * skills, only the names every object inherits are "skills".
     */
    function HasSkill(skillName: string): (r: bool)
      reads this
      ensures skillName in skills ==> (r <==> skills[skillName] != Undefined)
      ensures Valid() ==> (r <==> skillName in INHERITED_NAMES)
    {
      TypeOf(Property(skills, skillName)) != "undefined"
    }
  }

  /** How `delete services.skill` ends: only null makes it throw. */
  function DisableSkillsOutcome(services: Value): Completion {
    if services == Null then Throw(HOST_TYPE_ERROR) else Normal
  }

  /**
   * How `services[name] = instance` ends in strict code: undefined and null
   * have no properties and primitives cannot take new ones.
   */
  function SetServiceOutcome(services: Value): Completion {
    match services
    case Obj(_) => Normal
    case ErrorObj(_, _) => Normal
    case Builtin(_) => Normal
    case _ => Throw(HOST_TYPE_ERROR)
  }
}
