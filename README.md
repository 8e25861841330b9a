# Observable: a verified model of the Swift observer utility

This project models `Observable<Type>` from `ObserverPattern.playground/Contents.swift`.
It is a small publish/subscribe container. It holds a value and an ordered array of
listener records. Each record holds a weak reference to its observer object, the
array of `ObservableOptions` it subscribed with, and a closure. Setting the value
first prunes the records whose observer has been deallocated. It then calls the
closures subscribed to `.old` with the old value, and then those subscribed to
`.new` with the new value, each in registration order. `addObserver` can first
remove the observer's earlier records. It appends the new record. If the options
contain `.initial`, it calls the closure at once with the current value.
`removeObserver` drops every record of one observer.

Files:

- `sequences.dfy` (module `Sequences`): Swift's `filter`, as `Filter`, with its
  membership, multiplicity, order and concatenation lemmas. The source uses
  `filter` three times: in `removeObserver` and in `removeNilObserverCallbacks`,
  which change the list, and in `notifyCallbacks`, which builds a snapshot of it.
- `options.dfy` (module `Options`): the `ObservableOptions` option set, its three
  constants `1 << 0`, `1 << 1`, `1 << 2`, and `Contains`, the `contains` of the
  options array.
- `observable.dfy` (module `ObserverPattern`): the record datatypes, the pure
  functions that describe each list change and each round of notifications, the
  lemmas about them, and the class `Observable` itself. The class has the
  fields `value`, `callbacks` and `log`. Its methods change those fields in place,
  and each method's `ensures` ties the new state to those functions. Three client
  methods at the end (`OldBeforeNewScenario`, `RegisterThenDeallocate` and
  `DeallocatedObserverScenario`) exercise the class on a fresh `Observable<int>`.

Modelling choices:

- An observer's identity (`===` on `AnyObject`) is a `nat`, `ObserverId`.
- `weak var observer: AnyObject?` is `WeakRef = Nil | Ref(id)`, one per record.
  The runtime's zeroing of weak references when an object is deallocated is the
  explicit method `Observable.ObserverDeallocated`. It turns every `Ref(o)` into
  `Nil` and leaves the records in place. This is not a member of the source.
- A closure is an opaque token, `ClosureId`. Each closure call is recorded by
  appending `Delivery(record, value, option)` to the field `log`, in call order.
- `Callback` is a class in Swift. Only the `Observable` holds its instances, and
  nothing but the runtime changes them. So it is a datatype value here.
- `options` is an ARRAY `[ObservableOptions]` in the source, not an option set.
  So `options.contains(.new)` is `Array.contains`, which compares whole raw
  values. `Contains` models exactly that. An element that unites two options,
  such as `ObservableOptions(rawValue: 6)`, matches neither `.old` nor `.new`
  (`UnitedOptionMatchesNeither`). Read as a set of phases, the options would match
  such an element; the code's array semantics is what is modelled.
- The setter of `value` together with its `didSet` is `Observable.SetValue`. It
  has no equality short-circuit: setting the value it already holds notifies the
  same way, and no contract asks the two values to differ.
- `addObserver`'s defaults (`removeIfExists: true`, `options: [.new]`) are Dafny
  default parameter values. `closure` has no default; the Dafny calls pass it by its label.

## Model

| member | source | states |
|---|---|---|
| `Sequences.Filter` | ObserverPattern.playground/Contents.swift:81-83 | `filter` keeps exactly the elements satisfying the test; it leaves a list where all pass unchanged and empties one where none pass |
| `Sequences.FilterCount` | ObserverPattern.playground/Contents.swift:73 | `filter` keeps every occurrence of a kept element and no occurrence of a dropped one |
| `Sequences.FilterIsSubsequence` | ObserverPattern.playground/Contents.swift:77 | `filter` keeps the original relative order |
| `Sequences.FilterAppend` | ObserverPattern.playground/Contents.swift:64 | filtering a list with an appended tail is filtering both parts and joining them |
| `Sequences.FilterSingleton` | ObserverPattern.playground/Contents.swift:64 | filtering a one-element list keeps the element exactly when it passes |
| `Options.Bit` | ObserverPattern.playground/Contents.swift:104-106 | `1 << k`, for the shifts 0–2 the source uses, is positive (Swift's 64-bit `1 << k` differs from 2^k only from k = 63 on, which the source never uses) |
| `Options.BitIsSingleBit` | ObserverPattern.playground/Contents.swift:104-106 | `1 << k` has exactly one bit set, for the shifts 0–2 the source uses |
| `Options.OptionConstants` | ObserverPattern.playground/Contents.swift:103-106 | `.initial`, `.old` and `.new` have raw values 1, 2 and 4, each a single bit, all different |
| `Options.Contains` | ObserverPattern.playground/Contents.swift:66 | `contains` on the options array is true exactly when some element equals the option |
| `Options.ConstantsDoNotMatchEachOther` | ObserverPattern.playground/Contents.swift:104-106 | an array holding one constant contains that constant and neither of the other two |
| `Options.UnitedOptionMatchesNeither` | ObserverPattern.playground/Contents.swift:91 | an array element whose raw value unites `.old` and `.new` matches neither |
| `ObserverPattern.RecordsOf` | ObserverPattern.playground/Contents.swift:73 | the records of one observer are exactly the list's records that refer to it |
| `ObserverPattern.RemovingObserver` | ObserverPattern.playground/Contents.swift:71-74 | after `removeObserver(o)` the list holds exactly the records that do not refer to `o`, dead ones included |
| `ObserverPattern.RemovingObserverKeepsOthers` | ObserverPattern.playground/Contents.swift:71-74 | `removeObserver(o)` keeps every other record as often as it occurred and in order; with no record of `o` it changes nothing; a second removal changes nothing |
| `ObserverPattern.RemovingNil` | ObserverPattern.playground/Contents.swift:76-78 | pruning leaves exactly the records whose observer is still alive |
| `ObserverPattern.RemovingNilKeepsLive` | ObserverPattern.playground/Contents.swift:76-78 | pruning keeps every live record as often as it occurred and in order, and changes nothing when no record is dead |
| `ObserverPattern.ToNotify` | ObserverPattern.playground/Contents.swift:81-83 | the snapshot `callbacksToNotify` holds exactly the records whose options contain the option being notified |
| `ObserverPattern.ToNotifyKeepsOrder` | ObserverPattern.playground/Contents.swift:81-83 | that snapshot is in registration order |
| `ObserverPattern.Notifications` | ObserverPattern.playground/Contents.swift:79-85 | a round of notifications calls only records of the list that subscribed to the option, with the given value and option, and makes at most as many calls as the list has records; the exact per-record counts are in `NotificationsCount` |
| `ObserverPattern.Deliveries` | ObserverPattern.playground/Contents.swift:84 | `forEach` over a snapshot calls each of its records once, in order, with the same value and option |
| `ObserverPattern.NotificationsFollowFilter` | ObserverPattern.playground/Contents.swift:81-84 | filtering into a snapshot and then calling each record makes the same calls as walking the list record by record |
| `ObserverPattern.NotificationsAppend` | ObserverPattern.playground/Contents.swift:79-85 | notifying a list of earlier then later records calls all the earlier ones first |
| `ObserverPattern.NotificationsCount` | ObserverPattern.playground/Contents.swift:79-85 | a round calls each subscribed record exactly as often as it occurs in the list, and never calls an unsubscribed one |
| `ObserverPattern.SetDeliveries` | ObserverPattern.playground/Contents.swift:38-44 | one set makes at most twice as many calls as the list has records (the exact per-record counts are in `SetDeliveriesCount`), calls only live records of the list, and pairs the old value with `.old` and the new value with `.new` |
| `ObserverPattern.SetDeliveriesOrder` | ObserverPattern.playground/Contents.swift:38-44 | one set calls the live `.old` subscribers with the old value in registration order, then the live `.new` subscribers with the new value in registration order, whether or not the values are equal |
| `ObserverPattern.SetDeliveriesPhases` | ObserverPattern.playground/Contents.swift:40-43 | no call of a set goes to a dead record; each call carries the old value with `.old` or the new value with `.new`; no `.old` call follows a `.new` call |
| `ObserverPattern.SetDeliveriesCount` | ObserverPattern.playground/Contents.swift:42-43 | one set calls each live record once per occurrence in each phase it subscribed to, and calls no dead record |
| `ObserverPattern.CalledObserversAreLiveSubscribers` | ObserverPattern.playground/Contents.swift:40-43 | the observers a set calls in a phase are exactly those with a live record subscribed to that phase (both directions) |
| `ObserverPattern.Released` | ObserverPattern.playground/Contents.swift:90 | a deallocated observer's weak references read nil; every other record, and every record's options and closure, stay as they were |
| `ObserverPattern.ReleasedObserverIsPruned` | ObserverPattern.playground/Contents.swift:76-78 | after the next set, a deallocated observer's records are gone, exactly as if it had called `removeObserver` |
| `ObserverPattern.Registered` | ObserverPattern.playground/Contents.swift:57-64 | `addObserver` puts the new record last and grows the list by at most one |
| `ObserverPattern.AddReplacing` | ObserverPattern.playground/Contents.swift:57-64 | with `removeIfExists: true` the observer has exactly one record, the new one, at the end; the other records keep their order |
| `ObserverPattern.AddAppending` | ObserverPattern.playground/Contents.swift:55-64 | with `removeIfExists: false` the old list is kept as a prefix, the list grows by exactly one, and the observer gains one more record |
| `ObserverPattern.ReRegisteringReplaces` | ObserverPattern.playground/Contents.swift:55-64 | registering twice with `removeIfExists: true` keeps one record, with the second closure, and the next set calls no other closure of that observer |
| `ObserverPattern.OnlySetPrunes` | ObserverPattern.playground/Contents.swift:38-40 | registration and removal keep dead records; only the pruning of a set drops them |
| `ObserverPattern.Observable.constructor` | ObserverPattern.playground/Contents.swift:47-53 | a new container holds the given value, no records and an empty log (assignment in the initialiser runs no `didSet`) |
| `ObserverPattern.Observable.SetValue` | ObserverPattern.playground/Contents.swift:36-45 | the value becomes the new value; the list loses exactly its dead records and then has none; the log gains the calls of `SetDeliveries` |
| `ObserverPattern.Observable.AddObserver` | ObserverPattern.playground/Contents.swift:55-69 | the list becomes `Registered`; the value is unchanged; the log gains exactly one `.initial` call with the current value when the options contain `.initial`, and nothing otherwise |
| `ObserverPattern.Observable.RemoveObserver` | ObserverPattern.playground/Contents.swift:71-74 | the list becomes `RemovingObserver`; value and log are unchanged |
| `ObserverPattern.Observable.RemoveNilObserverCallbacks` | ObserverPattern.playground/Contents.swift:76-78 | the list becomes `RemovingNil`; value and log are unchanged |
| `ObserverPattern.Observable.NotifyCallbacks` | ObserverPattern.playground/Contents.swift:79-85 | the log gains exactly `Notifications` of the list; the list and the value are unchanged |
| `ObserverPattern.Observable.CallEach` | ObserverPattern.playground/Contents.swift:84 | the loop over the snapshot appends one call per record, in order |
| `ObserverPattern.Observable.Call` | ObserverPattern.playground/Contents.swift:67 | calling a record's closure appends exactly that call to the log |
| `ObserverPattern.Observable.ObserverDeallocated` | ObserverPattern.playground/Contents.swift:90 | the runtime's zeroing of weak references: the list becomes `Released` |
| `ObserverPattern.OldBeforeNewCalls` | ObserverPattern.playground/Contents.swift:38-43 | for a `[.old, .new]` listener registered before a `[.new]` listener, a set calls the first with the old value, then the first and the second with the new value |
| `ObserverPattern.OldBeforeNewScenario` | ObserverPattern.playground/Contents.swift:38-43 | the same calls come out of the class: `addObserver` twice, then one set |
| `ObserverPattern.DeallocatedObserverList` | ObserverPattern.playground/Contents.swift:55-64 | the list after two registrations and one deallocation |
| `ObserverPattern.DeallocatedObserverCalls` | ObserverPattern.playground/Contents.swift:76-78 | a set prunes the dead record and calls only the live listener |
| `ObserverPattern.RegisterThenDeallocate` | ObserverPattern.playground/Contents.swift:64-68 | an `[.initial, .new]` registration is called once with the current value at once; after deallocation its record reads nil |
| `ObserverPattern.DeallocatedObserverScenario` | ObserverPattern.playground/Contents.swift:38-45 | in the class, a deallocated observer's closure is never called by a set, and afterwards the list holds exactly the live listener's record |

## Left out

- The key-value observing example `KVOUser` and `kvoUser.observe` (Contents.swift:4-21): a wrapper over the Objective-C runtime, which is not visible.
- The demo script and the `User` and `Observer` holder classes (Contents.swift:115-134): console output and trivial holders.
- MVC.playground/Contents.swift is view-controller glue around text fields. SingletonPattern.playground/Contents.swift holds lazily initialised static accessors. Neither has behaviour worth a model.
- Closures: a closure body is never run, only its call is recorded. So re-entrancy, where a closure changes the observable while being notified, is not modelled. A round calls the records selected when it starts, the snapshot `callbacksToNotify`, which is the sequence `CallEach` walks; a record removed by a closure during the round would still be called later in that round, and the model does not show this.
- Memory management: deallocation happens only when `Observable.ObserverDeallocated` is called. A later `AddObserver` with the same id behaves like a new object at a reused address in Swift: the earlier records already read `Nil`, so neither `!==` nor `!= nil` confuses them with the new one.
- Failures inside closures: the closure type `(Type, ObservableOptions) -> Void` cannot throw, so no failure can cut a notification round short.
- `Callback` identity: records are values, so two identical registrations are indistinguishable in the model. The source never compares records by identity.
- `ObservableOptions.rawValue` is an unbounded `int`. The model only compares raw values and builds the three constants, so Swift's 64-bit `Int` width does not matter. The `OptionSet` algebra (union, intersection, set-style `contains`) is not modelled, because the options are only ever used as array elements.
- Concurrency: the source is single-threaded, and so is the model.
