/**
 * What a dispatch does, read off the pool's history: which notifications
 * were issued, which callbacks were called and how often each notification
 * was recycled; what `notify` visits; and why the ids `init_id` hands out
 * never repeat.
 */
module DispatchFacts {
  import opened JsValues
  import opened EntityModel

  // ---------------------------------------------------------------------
  // Reading a history
  // ---------------------------------------------------------------------

  /** The notifications issued by `getOne`, in order. */
  function Issues(h: seq<Event>): seq<Notification>
    decreases |h|
  {
    if h == [] then [] else (if h[0].Issued? then [h[0].n] else []) + Issues(h[1..])
  }

  /** The callbacks called, in order. */
  function Invocations(h: seq<Event>): seq<Callback>
    decreases |h|
  {
    if h == [] then [] else (if h[0].Invoked? then [h[0].callback] else []) + Invocations(h[1..])
  }

  /** How many times `n` was recycled. */
  function RecyclesOf(h: seq<Event>, n: Notification): nat
    decreases |h|
  {
    if h == [] then 0 else (if h[0] == Recycled(n) then 1 else 0) + RecyclesOf(h[1..], n)
  }

  /** How many recycles happened in all. */
  function RecycleCount(h: seq<Event>): nat
    decreases |h|
  {
    if h == [] then 0 else (if h[0].Recycled? then 1 else 0) + RecycleCount(h[1..])
  }

  /** The callbacks of `rs`, in order. */
  function CallbacksOf(rs: seq<Record>): (cbs: seq<Callback>)
    ensures |cbs| == |rs|
    ensures forall i :: 0 <= i < |rs| ==> cbs[i] == rs[i].callback
    decreases |rs|
  {
    if rs == [] then [] else [rs[0].callback] + CallbacksOf(rs[1..])
  }

  /** The recycles a complete dispatch over `rs` causes. */
  function PlannedRecycles(rs: seq<Record>): nat
    decreases |rs|
  {
    if rs == [] then 0 else RecycleTimes(rs[0].callback) + PlannedRecycles(rs[1..])
  }

  lemma {:induction false} IssuesAppend(a: seq<Event>, b: seq<Event>)
    ensures Issues(a + b) == Issues(a) + Issues(b)
    decreases |a|
  {
    if a == [] {
      assert a + b == b;
    } else {
      assert (a + b)[0] == a[0] && (a + b)[1..] == a[1..] + b;
      IssuesAppend(a[1..], b);
    }
  }

  lemma {:induction false} InvocationsAppend(a: seq<Event>, b: seq<Event>)
    ensures Invocations(a + b) == Invocations(a) + Invocations(b)
    decreases |a|
  {
    if a == [] {
      assert a + b == b;
    } else {
      assert (a + b)[0] == a[0] && (a + b)[1..] == a[1..] + b;
      InvocationsAppend(a[1..], b);
    }
  }

  lemma {:induction false} RecyclesOfAppend(a: seq<Event>, b: seq<Event>, n: Notification)
    ensures RecyclesOf(a + b, n) == RecyclesOf(a, n) + RecyclesOf(b, n)
    decreases |a|
  {
    if a == [] {
      assert a + b == b;
    } else {
      assert (a + b)[0] == a[0] && (a + b)[1..] == a[1..] + b;
      RecyclesOfAppend(a[1..], b, n);
    }
  }

  lemma {:induction false} RecycleCountAppend(a: seq<Event>, b: seq<Event>)
    ensures RecycleCount(a + b) == RecycleCount(a) + RecycleCount(b)
    decreases |a|
  {
    if a == [] {
      assert a + b == b;
    } else {
      assert (a + b)[0] == a[0] && (a + b)[1..] == a[1..] + b;
      RecycleCountAppend(a[1..], b);
    }
  }

  // ---------------------------------------------------------------------
  // One record's events
  // ---------------------------------------------------------------------

  /** Reading a history one event at a time. */
  lemma EventsCons(e: Event, t: seq<Event>)
    ensures Issues([e] + t) == (if e.Issued? then [e.n] else []) + Issues(t)
    ensures Invocations([e] + t) == (if e.Invoked? then [e.callback] else []) + Invocations(t)
    ensures RecycleCount([e] + t) == (if e.Recycled? then 1 else 0) + RecycleCount(t)
    ensures forall m :: RecyclesOf([e] + t, m) == (if e == Recycled(m) then 1 else 0) + RecyclesOf(t, m)
  {
    assert ([e] + t)[0] == e && ([e] + t)[1..] == t;
  }

  /** The recycles that follow the call to `c` with `n`. */
  function RecycleTail(c: Callback, n: Notification): seq<Event> {
    if c.Handler? then [Recycled(n), Recycled(n)] else if ThrowsWhenCalled(c) then [] else [Recycled(n)]
  }

  lemma RecycleTailEvents(c: Callback, n: Notification)
    ensures Issues(RecycleTail(c, n)) == [] && Invocations(RecycleTail(c, n)) == []
    ensures RecyclesOf(RecycleTail(c, n), n) == RecycleTimes(c) && RecycleCount(RecycleTail(c, n)) == RecycleTimes(c)
    ensures forall m :: m != n ==> RecyclesOf(RecycleTail(c, n), m) == 0
  {
    if c.Handler? {
      assert RecycleTail(c, n) == [Recycled(n)] + [Recycled(n)];
      EventsCons(Recycled(n), [Recycled(n)]);
      assert [Recycled(n)] == [Recycled(n)] + [];
      EventsCons(Recycled(n), []);
    } else if !ThrowsWhenCalled(c) {
      assert RecycleTail(c, n) == [Recycled(n)] + [];
      EventsCons(Recycled(n), []);
    }
  }

  /**
   * Delivering one record issues `n`, calls the record's callback once and
   * recycles `n` as often as that callback implies: twice for the default
   * handler (once in the handler, once after it returns), once for a
   * caller's callback that returns, never for one that throws.
   */
  lemma RecordEvents(r: Record, n: Notification)
    ensures Issues(RecordTrace(r, n)) == [n]
    ensures Invocations(RecordTrace(r, n)) == [r.callback]
    ensures RecyclesOf(RecordTrace(r, n), n) == RecycleTimes(r.callback)
    ensures RecycleCount(RecordTrace(r, n)) == RecycleTimes(r.callback)
    ensures forall m :: m != n ==> RecyclesOf(RecordTrace(r, n), m) == 0
  {
    var c := r.callback;
    var tail := RecycleTail(c, n);
    assert RecordTrace(r, n) == [Issued(n)] + ([Invoked(c, n)] + tail);
    EventsCons(Issued(n), [Invoked(c, n)] + tail);
    EventsCons(Invoked(c, n), tail);
    RecycleTailEvents(c, n);
  }

  /** The default handler's notification is recycled twice, by the handler and by the loop. */
  lemma DoubleRecycle(owner: Entity, subscriber: Entity, n: Notification)
    ensures RecyclesOf(RecordTrace(Record(subscriber, Handler(owner)), n), n) == 2
  {
    RecordEvents(Record(subscriber, Handler(owner)), n);
  }

  // ---------------------------------------------------------------------
  // A dispatch's events
  // ---------------------------------------------------------------------

  /** A dispatch over `rs` issues exactly `ns`, one per record, in order. */
  lemma {:induction false} TraceIssues(rs: seq<Record>, ns: seq<Notification>)
    requires |rs| == |ns|
    ensures Issues(Trace(rs, ns)) == ns
    decreases |rs|
  {
    if rs != [] {
      RecordEvents(rs[0], ns[0]);
      IssuesAppend(RecordTrace(rs[0], ns[0]), Trace(rs[1..], ns[1..]));
      TraceIssues(rs[1..], ns[1..]);
      assert ns == [ns[0]] + ns[1..];
    }
  }

  /** A dispatch over `rs` calls each record's callback once, in the order of `rs`. */
  lemma {:induction false} TraceInvocations(rs: seq<Record>, ns: seq<Notification>)
    requires |rs| == |ns|
    ensures Invocations(Trace(rs, ns)) == CallbacksOf(rs)
    decreases |rs|
  {
    if rs != [] {
      RecordEvents(rs[0], ns[0]);
      InvocationsAppend(RecordTrace(rs[0], ns[0]), Trace(rs[1..], ns[1..]));
      TraceInvocations(rs[1..], ns[1..]);
    }
  }

  /** A notification that was not issued is never recycled. */
  lemma {:induction false} NotIssuedNotRecycled(rs: seq<Record>, ns: seq<Notification>, m: Notification)
    requires |rs| == |ns| && m !in ns
    ensures RecyclesOf(Trace(rs, ns), m) == 0
    decreases |rs|
  {
    if rs != [] {
      RecordEvents(rs[0], ns[0]);
      RecyclesOfAppend(RecordTrace(rs[0], ns[0]), Trace(rs[1..], ns[1..]), m);
      NotIssuedNotRecycled(rs[1..], ns[1..], m);
    }
  }

  /** Each issued notification is recycled as often as its record's callback implies. */
  lemma {:induction false} TraceRecycles(rs: seq<Record>, ns: seq<Notification>, i: nat)
    requires |rs| == |ns| && i < |ns| && Distinct(ns)
    ensures RecyclesOf(Trace(rs, ns), ns[i]) == RecycleTimes(rs[i].callback)
    decreases |rs|
  {
    RecordEvents(rs[0], ns[0]);
    RecyclesOfAppend(RecordTrace(rs[0], ns[0]), Trace(rs[1..], ns[1..]), ns[i]);
    if i == 0 {
      assert ns[0] !in ns[1..] by {
        forall j | 0 <= j < |ns[1..]|
          ensures ns[1..][j] != ns[0]
        {
          assert ns[1..][j] == ns[j + 1];
        }
      }
      NotIssuedNotRecycled(rs[1..], ns[1..], ns[0]);
    } else {
      assert ns[0] != ns[i];
      assert Distinct(ns[1..]) by {
        forall j, k | 0 <= j < k < |ns[1..]|
          ensures ns[1..][j] != ns[1..][k]
        {
          assert ns[1..][j] == ns[j + 1] && ns[1..][k] == ns[k + 1];
        }
      }
      TraceRecycles(rs[1..], ns[1..], i - 1);
      assert ns[1..][i - 1] == ns[i] && rs[1..][i - 1] == rs[i];
    }
  }

  /** The recycles of a dispatch add up to what its records' callbacks imply. */
  lemma {:induction false} TraceRecycleCount(rs: seq<Record>, ns: seq<Notification>)
    requires |rs| == |ns|
    ensures RecycleCount(Trace(rs, ns)) == PlannedRecycles(rs)
    decreases |rs|
  {
    if rs != [] {
      RecordEvents(rs[0], ns[0]);
      RecycleCountAppend(RecordTrace(rs[0], ns[0]), Trace(rs[1..], ns[1..]));
      TraceRecycleCount(rs[1..], ns[1..]);
    }
  }

  /**
   * The pool balance: with callbacks supplied by the caller that all return,
   * every issued notification goes back to the pool exactly once.
   */
  lemma {:induction false} CallerCallbacksBalance(rs: seq<Record>)
    requires forall i :: 0 <= i < |rs| ==> rs[i].callback.External? && !ThrowsWhenCalled(rs[i].callback)
    ensures PlannedRecycles(rs) == |rs|
    decreases |rs|
  {
    if rs != [] {
      CallerCallbacksBalance(rs[1..]);
    }
  }

  /**
   * With only default handlers subscribed, the pool receives every issued
   * notification back twice.
   */
  lemma {:induction false} HandlersOverRecycle(rs: seq<Record>)
    requires forall i :: 0 <= i < |rs| ==> rs[i].callback.Handler?
    ensures PlannedRecycles(rs) == 2 * |rs|
    decreases |rs|
  {
    if rs != [] {
      HandlersOverRecycle(rs[1..]);
    }
  }

  // ---------------------------------------------------------------------
  // What `sendNotificationToSubscribers` and `notify` leave in the history
  // ---------------------------------------------------------------------

  /**
   * The events a dispatch appended to the pool's history (the state that
   * `SendNotificationToSubscribers` and `Notify` promise): `getOne` issued
   * exactly the returned notifications, the reached records' callbacks were
   * called in order, and each notification was recycled as planned; the
   * whole dispatch recycled exactly the planned number of times.
   */
  lemma DispatchedEvents(rs: seq<Record>, ns: seq<Notification>, start: seq<Event>, history: seq<Event>,
                         pool: Pool, name: string, data: Value, source: Entity)
    requires Dispatched(rs, ns, start, history, pool, name, data, source)
    ensures |start| <= |history|
    ensures Issues(history[|start|..]) == ns
    ensures Invocations(history[|start|..]) == CallbacksOf(rs[..|ns|])
    ensures RecycleCount(history[|start|..]) == PlannedRecycles(rs[..|ns|])
    ensures forall i :: 0 <= i < |ns| ==> RecyclesOf(history[|start|..], ns[i]) == RecycleTimes(rs[i].callback)
  {
    var done := rs[..|ns|];
    assert history[|start|..] == Trace(done, ns);
    TraceIssues(done, ns);
    TraceInvocations(done, ns);
    TraceRecycleCount(done, ns);
    forall i | 0 <= i < |ns|
      ensures RecyclesOf(history[|start|..], ns[i]) == RecycleTimes(rs[i].callback)
    {
      TraceRecycles(done, ns, i);
      assert done[i] == rs[i];
    }
  }

  /** With no iterable subscribers, a dispatch issues nothing and calls nothing. */
  lemma NothingListed(subscribers: Subscribers, ns: seq<Notification>, start: seq<Event>, history: seq<Event>,
                      pool: Pool, name: string, data: Value, source: Entity)
    requires !subscribers.Listed?
    requires Dispatched(Listing(subscribers), ns, start, history, pool, name, data, source)
    ensures ns == [] && history == start
  {
    assert Listing(subscribers)[..|ns|] == [];
  }

  /** A callback held by none of the records is never called. */
  lemma UnlistedCallbackNeverCalled(rs: seq<Record>, ns: seq<Notification>, start: seq<Event>, history: seq<Event>,
                                    pool: Pool, name: string, data: Value, source: Entity, cb: Callback)
    requires Dispatched(rs, ns, start, history, pool, name, data, source)
    requires forall i :: 0 <= i < |rs| ==> rs[i].callback != cb
    ensures |start| <= |history| && cb !in Invocations(history[|start|..])
  {
    DispatchedEvents(rs, ns, start, history, pool, name, data, source);
    var cbs := CallbacksOf(rs[..|ns|]);
    forall i | 0 <= i < |cbs|
      ensures cbs[i] != cb
    {
      assert rs[..|ns|][i] == rs[i];
    }
  }

  // ---------------------------------------------------------------------
  // What `notify` visits
  // ---------------------------------------------------------------------

  /**
   * Every record `notify(name, ...)` visits was registered on this registry,
   * under `name` or under "all": a record registered only on another
   * entity is never reached.
   */
  lemma PlanDrawsFromRegistry(subscriptions: map<string, seq<Record>>, name: string, r: Record)
    requires r in Plan(subscriptions, name)
    ensures (name in subscriptions && r in subscriptions[name]) || ("all" in subscriptions && r in subscriptions["all"])
  {
  }

  /**
   * `notify("all", ...)` visits the wildcard records twice; with one record
   * per event, that is the same record two times over.
   */
  lemma WildcardTwice(subscriptions: map<string, seq<Record>>)
    requires OneRecordPerEvent(subscriptions) && "all" in subscriptions
    ensures Plan(subscriptions, "all") == subscriptions["all"] + subscriptions["all"]
    ensures |Plan(subscriptions, "all")| == 2 && Plan(subscriptions, "all")[0] == Plan(subscriptions, "all")[1]
  {
  }

  // ---------------------------------------------------------------------
  // Ids
  // ---------------------------------------------------------------------

  /** Distinct counter values give distinct `entity_N` ids. */
  lemma EntityIdsDistinct(a: nat, b: nat)
    requires EntityIdText(a) == EntityIdText(b)
    ensures a == b
  {
    var prefix := "entity_";
    assert EntityIdText(a)[|prefix|..] == Decimal(a);
    assert EntityIdText(b)[|prefix|..] == Decimal(b);
    DecimalInjective(a, b);
  }
}
