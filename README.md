# Entity base class

A Dafny model of the `Entity` base class of a small JavaScript game
framework (`src/core/entity/entity.model.js`). Every object of the
framework extends `Entity`. It gives each one:

- a constructor that lays the caller's settings over a private copy of the
  default configuration and may strip the `skill` service;
- a per-entity subscription registry (`register`, `subscribeTo`);
- a dispatch loop (`notify`, `sendNotificationToSubscribers`). The loop
  takes a pooled notification for each subscription record, calls the
  record's callback with it, then recycles it;
- an error policy (`notifyError`) and the strict, verbose and test mode
  flags;
- a key/value store (`store`, `get`, `getData`) and skill lookup
  (`hasSkill`);
- sequential ids drawn from a module-wide counter (`init_id`).

Files and modules:

- `js_values.dfy` (module `JsValues`): the JavaScript values the class
  handles. This covers object references and property lookup on a plain
  object, which falls back to the twelve members inherited from
  `Object.prototype`. It also covers `typeof`, truthiness, and the decimal
  text of a counter value.
- `entity.dfy` (module `EntityModel`): the `Entity` class with its fields
  and methods, plus the modelled pool and notifications.
  - The pool keeps a ghost `history` of every issue, call and recycle, in
    order.
  - Each notification keeps ghost `live` and `recycles` fields.
  - `Construct` models a whole `new Entity(settings)` call, the throwing
    case included.
  - The Dafny constructor is the part that follows the settings merge.
- `dispatch_facts.dfy` (module `DispatchFacts`): lemmas that read the
  pool history a dispatch leaves behind. They cover what `notify` visits,
  the pool balance, and why ids never repeat.

### Behaviour as written

The model follows the code, including three places where the code does
something other than what it evidently means.

- Line 95: `typeof subscription !== Set` compares a string with a
  function, so it always holds. `Register` therefore always installs a new
  set holding only the new record. Earlier records under that event are
  dropped, so the registry keeps one record per event (`OneRecordPerEvent`,
  kept in `Entity.Valid`).
- Line 50: `typeof record.callback === 'Promise'` never holds
  (`TypeOfNeverPromise`). The asynchronous branch is dead code (`assert
  false` in `Deliver`). An async callback is recycled as soon as it
  returns its promise.
- Line 130: the `_id` test is inverted. `_id` takes `settings._id` only
  when that is undefined; otherwise it takes the fresh `entity_N`, so a
  caller's `_id` is never kept.

Other consequences of the code as written:

- The default callback `onNewNotification` recycles its notification
  (line 111). The loop then recycles the same instance again (line 64).
  Such a notification is recycled twice (`RecycleTimes`, `DoubleRecycle`,
  `HandlersOverRecycle`).
- A callback that throws ends the `forEach`. Its notification is never
  recycled by the loop, and records after it are not reached.
- `Object.assign` is a shallow overlay. A `services` object supplied by
  the caller is shared with the entity, so `disable_skills` deletes `skill`
  from the caller's own object. Only the default configuration is copied,
  and `Construct` may modify nothing but the caller's `services` object,
  so the defaults are never changed unless the caller passes the defaults'
  own `services` object.
- `disableSkills: true` with `services: null` makes `delete null.skill`
  throw a TypeError out of the constructor.
- `typeof null` is "object", so `sendNotificationToSubscribers(null, ...)`
  passes the first test and throws a TypeError reading `forEach`. `notify`
  never passes null: a registry key yields a set, an inherited member or
  undefined.
- `hasSkill` looks up a plain object. With `skills` empty it is false for
  every name except the twelve inherited from `Object.prototype`, for which
  it is true.

Three more things the code does that a reader might not expect:

- The constructor never calls `init_id`. After construction, `entity_id`
  and `_id` are undefined, and the counter moves only when `InitId` runs.
- `register` does not add to an existing set (see line 95 above).
- Asynchronous callbacks are not awaited (see line 50 above).

## Model

| member | source | states |
|---|---|---|
| JsValues.TypeOfNeverPromise | src/core/entity/entity.model.js:50 | in the model, `typeof` yields one of six strings, never "Promise", so the asynchronous branch cannot be taken |
| JsValues.TypeOfUndefined | src/core/entity/entity.model.js:130 | `typeof v === 'undefined'` holds exactly for the undefined value |
| JsValues.DecimalInjective | src/core/entity/entity.model.js:129 | different counter values print as different decimal text |
| JsValues.Property | src/core/entity/entity.model.js:222 | reading a key of a plain object yields its own value; a missing key yields the built-in for the twelve names inherited from `Object.prototype` and undefined for every other |
| EntityModel.Plan | src/core/entity/entity.model.js:72-73 | `notify(name, ...)` visits the records registered under `name`, then those under "all"; an unregistered key, inherited member or not, contributes none |
| EntityModel.Reached | src/core/entity/entity.model.js:47-67 | the `forEach` calls every callback, or stops just after the first one that throws |
| EntityModel.OutcomeOf | src/core/entity/entity.model.js:47-67 | a dispatch completes normally exactly when no callback throws; otherwise it rethrows the first exception |
| EntityModel.DispatchAppend | src/core/entity/entity.model.js:71-74 | the two dispatches of `notify` act as one dispatch over the named records followed by the wildcard records; the second runs only if the first did not throw |
| EntityModel.TraceAppend | src/core/entity/entity.model.js:72-73 | the pool events of two consecutive dispatches are those of the first followed by those of the second |
| EntityModel.CopyConfiguration | src/core/entity/entity.model.js:10 | the copy of the defaults has the serialised keys and the same primitive values; each object becomes a fresh object with the same properties, shared by no other key |
| EntityModel.MergeSettings | src/core/entity/entity.model.js:10 | the merged settings are the caller's over a fresh copy of the defaults, and construction throws exactly when the merged `disableSkills` is true and `services` is null; the only `services` object not fresh is the caller's |
| EntityModel.Construct | src/core/entity/entity.model.js:8-34 | `new Entity(settings)` throws a TypeError exactly when skills are disabled over a null `services`, and then changes nothing; otherwise it yields a fresh valid entity built from the merged settings, with the name, empty maps, undefined ids, services, flags and stored `services_to_enable` the constructor gives; the caller's `services` object loses `skill` exactly when skills are disabled; a default `services` object is copied first, so only the copy loses `skill` |
| EntityModel.Entity.constructor | src/core/entity/entity.model.js:12-33 | from the merged settings: the name, empty skills, ui and subscriptions, services and both flags; `skill` removed from `services` exactly when skills are disabled; in test mode both flags are true and nothing is stored, otherwise `data` holds only `services_to_enable`; the ids stay undefined |
| EntityModel.Entity.Setup | src/core/entity/entity.model.js:14-33 | the statements after the name: the skill policy, the four empty maps, services, the flags, then test mode or the stored services |
| EntityModel.Entity.InitializeSkills | src/core/entity/entity.model.js:145-151 | `skills` becomes `{}`; services are touched only when `disableSkills === true`, and then lose `skill` (or the delete on null throws) |
| EntityModel.Entity.DisableSkills | src/core/entity/entity.model.js:139-143 | deletes exactly the key `skill` from an object `services`; throws exactly on null; does nothing when undefined |
| EntityModel.Entity.InitId | src/core/entity/entity.model.js:128-137 | the counter grows by exactly one and `entity_id` is `entity_` followed by its new value; `_id` is undefined when `settings._id` is undefined and equals `entity_id` otherwise |
| EntityModel.Entity.Register | src/core/entity/entity.model.js:93-104 | `subscriptions[e]` becomes exactly the one new record; earlier records under `e` are dropped and every other event keeps its set; one record per event is preserved |
| EntityModel.Entity.SubscribeTo | src/core/entity/entity.model.js:80-86 | registers on the observable under the given event or "all", with the given callback or this entity's own `onNewNotification`; unless it subscribes to itself, this entity's registry is untouched |
| EntityModel.Entity.OnNewNotification | src/core/entity/entity.model.js:106-112 | the default handler recycles its notification once and appends that recycle to the pool history |
| EntityModel.Pool.GetOne | src/core/entity/entity.model.js:48 | the pool hands out a fresh live notification carrying the name, data and source, and records the issue |
| EntityModel.Notification.Recycle | src/core/entity/entity.model.js:64 | recycling marks the instance not live, counts the recycle, and records it |
| EntityModel.Invoke | src/core/entity/entity.model.js:63 | calling a callback records the call; the default handler also recycles; a raising callback's exception is the outcome |
| EntityModel.Entity.Deliver | src/core/entity/entity.model.js:48-65 | one record: issue, call, then the loop's recycle unless the call threw; the notification carries the event and `this` and is recycled as `RecycleTimes` says |
| EntityModel.Entity.DeliverNext | src/core/entity/entity.model.js:47-67 | one turn of the `forEach` extends the dispatch state by the next record's events |
| EntityModel.Entity.SendEach | src/core/entity/entity.model.js:47-67 | the `forEach` delivers to records in order up to the first throw; the history grows by exactly their events (issue, call, recycles); the notifications are fresh, distinct and carry the event; the outcome is the first exception or normal |
| EntityModel.Entity.SendNotificationToSubscribers | src/core/entity/entity.model.js:42-69 | the same, over `subscribers`; nothing happens for undefined or non-iterable values; null throws a TypeError before any record is visited and leaves the history unchanged |
| EntityModel.Entity.Broadcast | src/core/entity/entity.model.js:72-73 | the named dispatch then the wildcard dispatch, as one dispatch over `Plan`; a throw in the first skips the second; neither registry lookup yields null |
| EntityModel.Entity.Notify | src/core/entity/entity.model.js:71-74 | `notify(name, data)` dispatches over the named records then the wildcard records, with `data` defaulting to a fresh `{}` |
| EntityModel.Entity.NotifyError | src/core/entity/entity.model.js:250-262 | the error line is always written; throws exactly when `throwError` is omitted or true, or strict mode is true; an Error is rethrown as is and anything else is wrapped in a new Error |
| EntityModel.Entity.Debug | src/core/entity/entity.model.js:225-234 | two log lines, "debug" then the arguments, exactly when verbose mode is truthy; none otherwise |
| EntityModel.Entity.SetName | src/core/entity/entity.model.js:153-155 | sets the name and nothing else |
| EntityModel.Entity.SetId | src/core/entity/entity.model.js:157-159 | sets `_id` and nothing else |
| EntityModel.Entity.SetService | src/core/entity/entity.model.js:161-163 | writes the one service into the shared `services` object; throws on undefined, null or a primitive |
| EntityModel.Entity.EnableStrictMode | src/core/entity/entity.model.js:165-167 | strict mode becomes true; nothing else changes |
| EntityModel.Entity.DisableStrictMode | src/core/entity/entity.model.js:169-171 | strict mode becomes false; nothing else changes |
| EntityModel.Entity.DisableVerboseMode | src/core/entity/entity.model.js:173-175 | verbose mode becomes false; nothing else changes |
| EntityModel.Entity.EnableVerboseMode | src/core/entity/entity.model.js:177-179 | verbose mode becomes true; nothing else changes |
| EntityModel.Entity.EnableTestMode | src/core/entity/entity.model.js:181-184 | both flags become true; nothing else changes |
| EntityModel.Entity.DisableTestMode | src/core/entity/entity.model.js:186-189 | both flags become false; nothing else changes |
| EntityModel.Entity.Store | src/core/entity/entity.model.js:206-208 | `get` then yields the stored value, and every other key keeps its value (`'__proto__'` is an ordinary key here; see Left out) |
| EntityModel.Entity.Get | src/core/entity/entity.model.js:221-223 | the stored value, else an inherited member, else undefined |
| EntityModel.Entity.GetData | src/core/entity/entity.model.js:76-78 | the same lookup as `get` |
| EntityModel.Entity.HasSkill | src/core/entity/entity.model.js:246-248 | true exactly when `skills[name]` is defined; for a valid entity, exactly for the inherited member names |
| DispatchFacts.RecordEvents | src/core/entity/entity.model.js:48-65 | one record's delivery issues its notification once, calls its callback once, and recycles it 2, 1 or 0 times (default handler, returning callback, throwing callback) |
| DispatchFacts.DoubleRecycle | src/core/entity/entity.model.js:106-112 | a notification delivered to the default handler is recycled twice |
| DispatchFacts.TraceIssues | src/core/entity/entity.model.js:47-48 | a dispatch issues exactly the returned notifications, one per reached record, in order |
| DispatchFacts.TraceInvocations | src/core/entity/entity.model.js:47-63 | a dispatch calls each reached record's callback exactly once, in registry order |
| DispatchFacts.NotIssuedNotRecycled | src/core/entity/entity.model.js:62-65 | a dispatch never recycles a notification it did not issue |
| DispatchFacts.TraceRecycles | src/core/entity/entity.model.js:62-65 | each issued notification is recycled as often as its record's callback implies |
| DispatchFacts.TraceRecycleCount | src/core/entity/entity.model.js:62-65 | the recycles of a dispatch add up to the total its callbacks imply |
| DispatchFacts.CallerCallbacksBalance | src/core/entity/entity.model.js:62-65 | with caller callbacks that all return, every issued notification is recycled exactly once |
| DispatchFacts.HandlersOverRecycle | src/core/entity/entity.model.js:106-112 | with only default handlers, twice as many recycles as issues reach the pool |
| DispatchFacts.DispatchedEvents | src/core/entity/entity.model.js:42-69 | the history a dispatch leaves: exactly its notifications issued, the reached callbacks called in order, and each notification and the total recycled as planned |
| DispatchFacts.NothingListed | src/core/entity/entity.model.js:43-46 | with undefined or non-iterable subscribers, nothing is issued and the history is unchanged |
| DispatchFacts.UnlistedCallbackNeverCalled | src/core/entity/entity.model.js:47-63 | a callback held by no visited record is never called |
| DispatchFacts.PlanDrawsFromRegistry | src/core/entity/entity.model.js:71-74 | every record `notify` visits was registered on this entity under the name or under "all", so a record registered only on another entity is never reached |
| DispatchFacts.WildcardTwice | src/core/entity/entity.model.js:71-74 | `notify("all", ...)` visits the wildcard record twice |
| DispatchFacts.EntityIdsDistinct | src/core/entity/entity.model.js:129 | distinct counter values give distinct `entity_N` ids |

## Left out

- The viewport module, and the host event and DOM methods `createCustomEvent`, `emit`, `generateDOM`, `listen`, `removeListener`, `removeAllListeners`, `destroy` and `setupListener`. They work on `window`, `document` and listener plumbing outside the entity's state.
- `doAsync`: a timer; nothing of the entity's state is involved.
- Console output is modelled as returned lines (`ConsoleLine`). The text that string conversion produces for names and errors is not modelled, and neither is the message text `new Error(error)` builds.
- The JSON copy is modelled as an independent copy of the top level. Objects nested below the top level, cyclic values that would make `JSON.stringify` throw, and values JSON cannot represent (functions, `NaN`) are not modelled.
- The default configuration (`./entity.model.config`) is not part of this model. It is a parameter (`template`) of `Construct`.
- The notification pool (`../notification`) is not part of this model. It is modelled by the interface the entity uses (`getOne`, `recycle`) and a ghost history. How instances are cleared or reused is not modelled: each `getOne` yields a new instance, and its name, data and source never change.
- Callbacks are functions that return, return a promise at once, or throw. Other effects of a caller's callback are not modelled; nor are values that are not functions, whose call throws a TypeError.
- A thrown exception is surfaced as a `Completion` outcome rather than as control flow.
- EntityModel.Entity.Store: keys of the registry, `data`, `services` and the settings are plain strings, so the `'__proto__'` key's special assignment is not modelled. In JavaScript, `store('__proto__', 5)` does nothing and `get('__proto__')` still yields `Object.prototype`; `store('__proto__', obj)` replaces the prototype of `data` and so changes what `get` yields for other keys. The model treats `'__proto__'` as an ordinary own key, in `Store`, `Get`, `GetData`, `SetService` and `Register` alike.
- Numbers are integers; floating point is not modelled. Settings values are treated as opaque, and the unused `ui` map stays empty.
- The module-wide `counter` is an `IdCounter` object passed to `InitId`, and the pool is a constructor argument, instead of being module-level variables.
- `Construct` takes the caller's settings as a map; calling with no argument is the empty map.
- The `EventEmitter` import is unused.
