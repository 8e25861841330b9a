// `Observable<Type>`: a value holder that calls the closures registered with
// it when the value is set, filtered by the options each listener chose.

module ObserverPattern {
  import opened Sequences
  import opened Options

  /** The identity (`===`) of an observer object. */
  type ObserverId = nat

  /** Stands for the escaping closure a listener registers: only its calls are observable. */
  type ClosureId = nat

  /** `weak var observer: AnyObject?`: reads nil once the observer has been deallocated. */
  datatype WeakRef = Nil | Ref(id: ObserverId)

  /** A listener record (the nested class `Callback`). */
  datatype Callback = Callback(observer: WeakRef, options: seq<ObservableOptions>, closure: ClosureId)

  /** One call `closure(value, option)` of the closure held by `callback`. */
  datatype Delivery<T> = Delivery(callback: Callback, value: T, option: ObservableOptions)

  // The record tests the source hands to `filter`.

  function HasOtherObserver(observer: ObserverId): Callback -> bool
  {
    (c: Callback) => c.observer != Ref(observer)
  }

  function HasObserver(observer: ObserverId): Callback -> bool
  {
    (c: Callback) => c.observer == Ref(observer)
  }

  function HasLiveObserver(): Callback -> bool
  {
    (c: Callback) => c.observer != Nil
  }

  function IsSubscribed(option: ObservableOptions): Callback -> bool
  {
    (c: Callback) => Contains(c.options, option)
  }

  /** The records of `observer`, in order. */
  function RecordsOf(cs: seq<Callback>, observer: ObserverId): (r: seq<Callback>)
    ensures forall c :: c in r <==> c in cs && c.observer == Ref(observer)
  {
    Filter(cs, HasObserver(observer))
  }

  /** The list `removeObserver(observer)` leaves: `callbacks.filter { $0.observer !== observer }`. */
  function RemovingObserver(cs: seq<Callback>, observer: ObserverId): (r: seq<Callback>)
    ensures forall c :: c in r <==> c in cs && c.observer != Ref(observer)
  {
    Filter(cs, HasOtherObserver(observer))
  }

  /** The list `removeNilObserverCallbacks` leaves: `callbacks.filter { $0.observer != nil }`. */
  function RemovingNil(cs: seq<Callback>): (r: seq<Callback>)
    ensures forall c :: c in r <==> c in cs && c.observer != Nil
  {
    Filter(cs, HasLiveObserver())
  }

  /** `callbacksToNotify` of `notifyCallbacks`: the records whose options contain `option`. */
  function ToNotify(cs: seq<Callback>, option: ObservableOptions): (r: seq<Callback>)
    ensures forall c :: c in r <==> c in cs && option in c.options
  {
    Filter(cs, IsSubscribed(option))
  }

  /**
   * The closure calls one `notifyCallbacks(value: v, option: option)` makes over
   * `cs`, defined record by record in registration order.
   */
  function Notifications<T>(cs: seq<Callback>, v: T, option: ObservableOptions): (r: seq<Delivery<T>>)
    ensures |r| <= |cs|
    ensures forall d :: d in r ==>
      d.callback in cs && option in d.callback.options && d.value == v && d.option == option
  {
    if |cs| == 0 then []
    else
      (if Contains(cs[0].options, option) then [Delivery(cs[0], v, option)] else [])
      + Notifications(cs[1..], v, option)
  }

  /** One call per record of `rs`, in order: what `forEach` over a snapshot does. */
  function Deliveries<T>(rs: seq<Callback>, v: T, option: ObservableOptions): (r: seq<Delivery<T>>)
    ensures |r| == |rs|
    ensures forall k :: 0 <= k < |rs| ==> r[k] == Delivery(rs[k], v, option)
  {
    if |rs| == 0 then [] else [Delivery(rs[0], v, option)] + Deliveries(rs[1..], v, option)
  }

  /** The closure calls one set of the value from `oldValue` to `newValue` makes over `cs`. */
  function SetDeliveries<T>(cs: seq<Callback>, oldValue: T, newValue: T): (r: seq<Delivery<T>>)
    ensures |r| <= 2 * |cs|
    ensures forall d :: d in r ==> d.callback in cs && d.callback.observer != Nil
    ensures forall d :: d in r ==>
      (d.option == Old && d.value == oldValue) || (d.option == New && d.value == newValue)
  {
    var live := RemovingNil(cs);
    Notifications(live, oldValue, Old) + Notifications(live, newValue, New)
  }

  /** The list `addObserver` leaves. */
  function Registered(cs: seq<Callback>, observer: ObserverId, removeIfExists: bool,
                      options: seq<ObservableOptions>, closure: ClosureId): (r: seq<Callback>)
    ensures |r| >= 1 && r[|r| - 1] == Callback(Ref(observer), options, closure)
    ensures |r| <= |cs| + 1
  {
    (if removeIfExists then RemovingObserver(cs, observer) else cs)
    + [Callback(Ref(observer), options, closure)]
  }

  /** A record once the runtime has deallocated `observer`: a weak reference to it reads nil. */
  function Cleared(c: Callback, observer: ObserverId): Callback
  {
    if c.observer == Ref(observer) then c.(observer := Nil) else c
  }

  /**
   * The list once the runtime has deallocated `observer`: every weak reference
   * to it reads nil, the records themselves stay where they are.
   */
  function Released(cs: seq<Callback>, observer: ObserverId): (r: seq<Callback>)
    ensures |r| == |cs|
    ensures forall c :: c in r ==> c.observer != Ref(observer)
    ensures forall i :: 0 <= i < |cs| ==>
      r[i].options == cs[i].options && r[i].closure == cs[i].closure &&
      (cs[i].observer != Ref(observer) ==> r[i] == cs[i]) &&
      (cs[i].observer == Ref(observer) ==> r[i].observer == Nil)
  {
    if |cs| == 0 then [] else [Cleared(cs[0], observer)] + Released(cs[1..], observer)
  }

  // ----- notification -----

  /**
   * `removeObserver(o)` leaves every record of another observer, as often as
   * it occurred, in the original order, and none of `o`; when `o` has no
   * record it changes nothing, and removing twice is removing once.
   */
  lemma RemovingObserverKeepsOthers(cs: seq<Callback>, o: ObserverId)
    ensures forall c :: multiset(RemovingObserver(cs, o))[c]
                     == if c.observer == Ref(o) then 0 else multiset(cs)[c]
    ensures IsSubsequence(RemovingObserver(cs, o), cs)
    ensures (forall c :: c in cs ==> c.observer != Ref(o)) ==> RemovingObserver(cs, o) == cs
    ensures RemovingObserver(RemovingObserver(cs, o), o) == RemovingObserver(cs, o)
  {
    forall c {
      FilterCount(cs, HasOtherObserver(o), c);
    }
    FilterIsSubsequence(cs, HasOtherObserver(o));
  }

  /** Pruning leaves every live record, as often as it occurred, in the original order. */
  lemma RemovingNilKeepsLive(cs: seq<Callback>)
    ensures forall c :: multiset(RemovingNil(cs))[c] == if c.observer == Nil then 0 else multiset(cs)[c]
    ensures IsSubsequence(RemovingNil(cs), cs)
    ensures (forall c :: c in cs ==> c.observer != Nil) ==> RemovingNil(cs) == cs
  {
    forall c {
      FilterCount(cs, HasLiveObserver(), c);
    }
    FilterIsSubsequence(cs, HasLiveObserver());
  }

  /** The snapshot `notifyCallbacks` walks keeps registration order. */
  lemma ToNotifyKeepsOrder(cs: seq<Callback>, option: ObservableOptions)
    ensures IsSubsequence(ToNotify(cs, option), cs)
  {
    FilterIsSubsequence(cs, IsSubscribed(option));
  }

  /** Calling the subscribed records one after another is the record-by-record definition. */
  lemma {:induction false} NotificationsFollowFilter<T>(cs: seq<Callback>, v: T, option: ObservableOptions)
    ensures Notifications(cs, v, option) == Deliveries(ToNotify(cs, option), v, option)
  {
    if |cs| > 0 {
      var rest := ToNotify(cs[1..], option);
      NotificationsFollowFilter(cs[1..], v, option);
      if Contains(cs[0].options, option) {
        assert ToNotify(cs, option) == [cs[0]] + rest;
        assert ([cs[0]] + rest)[1..] == rest;
      } else {
        assert ToNotify(cs, option) == rest;
      }
    }
  }

  /** Notification follows registration order. */
  lemma {:induction false} NotificationsAppend<T>(a: seq<Callback>, b: seq<Callback>, v: T, option: ObservableOptions)
    ensures Notifications(a + b, v, option) == Notifications(a, v, option) + Notifications(b, v, option)
  {
    if |a| == 0 {
      assert a + b == b;
    } else {
      assert (a + b)[1..] == a[1..] + b;
      NotificationsAppend(a[1..], b, v, option);
    }
  }

  /** Every record subscribed to `option` is called exactly once per occurrence, the others never. */
  lemma {:induction false} NotificationsCount<T>(cs: seq<Callback>, v: T, option: ObservableOptions, c: Callback)
    ensures multiset(Notifications(cs, v, option))[Delivery(c, v, option)]
         == if option in c.options then multiset(cs)[c] else 0
  {
    if |cs| > 0 {
      var x, tail := cs[0], cs[1..];
      var rest := Notifications(tail, v, option);
      NotificationsCount(tail, v, option, c);
      assert cs == [x] + tail;
      assert multiset(cs)[c] == multiset([x])[c] + multiset(tail)[c];
      if Contains(x.options, option) {
        assert Notifications(cs, v, option) == [Delivery(x, v, option)] + rest;
        assert multiset([Delivery(x, v, option)] + rest)
            == multiset([Delivery(x, v, option)]) + multiset(rest);
      } else {
        assert Notifications(cs, v, option) == rest;
      }
    }
  }

  // ----- setting the value -----

  /**
   * One set calls the old-value closures of the live records subscribed to
   * `.old`, then the new-value closures of those subscribed to `.new`, each in
   * registration order; nothing depends on whether the two values are equal.
   */
  lemma SetDeliveriesOrder<T>(cs: seq<Callback>, oldValue: T, newValue: T)
    ensures SetDeliveries(cs, oldValue, newValue)
         == Deliveries(ToNotify(RemovingNil(cs), Old), oldValue, Old)
          + Deliveries(ToNotify(RemovingNil(cs), New), newValue, New)
  {
    NotificationsFollowFilter(RemovingNil(cs), oldValue, Old);
    NotificationsFollowFilter(RemovingNil(cs), newValue, New);
  }

  /** No call of a set goes to a dead record, and every `.old` call precedes every `.new` call. */
  lemma SetDeliveriesPhases<T>(cs: seq<Callback>, oldValue: T, newValue: T)
    ensures var r := SetDeliveries(cs, oldValue, newValue);
      (forall d :: d in r ==> d.callback in cs && d.callback.observer != Nil) &&
      (forall d :: d in r ==>
        (d.option == Old && d.value == oldValue) || (d.option == New && d.value == newValue)) &&
      (forall i, j :: 0 <= i < j < |r| && r[i].option == New ==> r[j].option == New)
  {
  }

  /**
   * One set calls each live record subscribed to a phase exactly once per
   * occurrence in the list for that phase, and no other record.
   */
  lemma SetDeliveriesCount<T>(cs: seq<Callback>, oldValue: T, newValue: T, c: Callback)
    ensures var r := SetDeliveries(cs, oldValue, newValue);
      multiset(r)[Delivery(c, oldValue, Old)]
        == (if c.observer != Nil && Old in c.options then multiset(cs)[c] else 0) &&
      multiset(r)[Delivery(c, newValue, New)]
        == (if c.observer != Nil && New in c.options then multiset(cs)[c] else 0)
  {
    var live := RemovingNil(cs);
    var a, b := Notifications(live, oldValue, Old), Notifications(live, newValue, New);
    FilterCount(cs, HasLiveObserver(), c);
    NotificationsCount(live, oldValue, Old, c);
    NotificationsCount(live, newValue, New, c);
    assert SetDeliveries(cs, oldValue, newValue) == a + b;
    assert multiset(a + b) == multiset(a) + multiset(b);
    assert Old != New by { OptionConstants(); }
    assert Delivery(c, oldValue, Old) !in b;
    assert Delivery(c, newValue, New) !in a;
  }

  /**
   * The observers a set calls in a phase are exactly those with a live record
   * subscribed to that phase.
   */
  lemma CalledObserversAreLiveSubscribers<T>(cs: seq<Callback>, v: T, option: ObservableOptions, o: ObserverId)
    ensures (exists d :: d in Notifications(RemovingNil(cs), v, option) && d.callback.observer == Ref(o))
        <==> (exists c :: c in cs && c.observer == Ref(o) && option in c.options)
  {
    var live := RemovingNil(cs);
    var n := Notifications(live, v, option);
    NotificationsFollowFilter(live, v, option);
    if c :| c in cs && c.observer == Ref(o) && option in c.options {
      assert c in live;
      assert c in ToNotify(live, option);
      var i :| 0 <= i < |ToNotify(live, option)| && ToNotify(live, option)[i] == c;
      assert n[i] in n;
    }
  }

  /** A deallocated observer's records are gone after the next set, as if it had removed itself. */
  lemma {:induction false} ReleasedObserverIsPruned(cs: seq<Callback>, o: ObserverId)
    ensures RemovingNil(Released(cs, o)) == RemovingObserver(RemovingNil(cs), o)
  {
    if |cs| > 0 {
      var x, tail := cs[0], cs[1..];
      ReleasedObserverIsPruned(tail, o);
      assert Released(cs, o)[1..] == Released(tail, o);
      var liveTail := RemovingNil(tail);
      if x.observer == Nil {
        assert RemovingNil(cs) == liveTail;
      } else {
        assert RemovingNil(cs) == [x] + liveTail;
        assert ([x] + liveTail)[1..] == liveTail;
      }
    }
  }

  // ----- registration -----

  /**
   * `addObserver(o, removeIfExists: true, ...)` leaves exactly one record for
   * `o`, the new one, at the end; the other records keep their order.
   */
  lemma AddReplacing(cs: seq<Callback>, o: ObserverId, options: seq<ObservableOptions>, closure: ClosureId)
    ensures var r := Registered(cs, o, true, options, closure);
      RecordsOf(r, o) == [Callback(Ref(o), options, closure)] &&
      r[|r| - 1] == Callback(Ref(o), options, closure) &&
      RemovingObserver(r, o) == RemovingObserver(cs, o)
  {
    var rest := RemovingObserver(cs, o);
    var c := Callback(Ref(o), options, closure);
    assert Registered(cs, o, true, options, closure) == rest + [c];
    FilterAppend(rest, [c], HasObserver(o));
    FilterSingleton(c, HasObserver(o));
    assert RecordsOf(rest, o) == [];
    FilterAppend(rest, [c], HasOtherObserver(o));
    FilterSingleton(c, HasOtherObserver(o));
    assert RemovingObserver(rest, o) == rest;
  }

  /**
   * `addObserver(o, removeIfExists: false, ...)` appends and removes nothing: the
   * list grows by one and `o` may now have several records.
   */
  lemma AddAppending(cs: seq<Callback>, o: ObserverId, options: seq<ObservableOptions>, closure: ClosureId)
    ensures var r := Registered(cs, o, false, options, closure);
      |r| == |cs| + 1 && r[..|cs|] == cs && r[|cs|] == Callback(Ref(o), options, closure) &&
      |RecordsOf(r, o)| == |RecordsOf(cs, o)| + 1 &&
      RemovingObserver(r, o) == RemovingObserver(cs, o)
  {
    var c := Callback(Ref(o), options, closure);
    FilterAppend(cs, [c], HasObserver(o));
    FilterAppend(cs, [c], HasOtherObserver(o));
  }

  /**
   * Registering `o` twice with `removeIfExists: true` keeps one record, with
   * the second closure, which is the only closure of `o` the next set calls.
   */
  lemma ReRegisteringReplaces<T>(cs: seq<Callback>, o: ObserverId,
                                 options1: seq<ObservableOptions>, closure1: ClosureId,
                                 options2: seq<ObservableOptions>, closure2: ClosureId,
                                 oldValue: T, newValue: T)
    ensures var r := Registered(Registered(cs, o, true, options1, closure1), o, true, options2, closure2);
      RecordsOf(r, o) == [Callback(Ref(o), options2, closure2)] &&
      forall d :: d in SetDeliveries(r, oldValue, newValue) && d.callback.observer == Ref(o) ==>
        d.callback.closure == closure2
  {
    var r1 := Registered(cs, o, true, options1, closure1);
    AddReplacing(r1, o, options2, closure2);
    SetDeliveriesPhases(Registered(r1, o, true, options2, closure2), oldValue, newValue);
  }

  /** Registration and removal never prune dead records: only a set does. */
  lemma OnlySetPrunes(cs: seq<Callback>, o: ObserverId, removeIfExists: bool,
                      options: seq<ObservableOptions>, closure: ClosureId, c: Callback)
    requires c in cs && c.observer == Nil
    ensures c in Registered(cs, o, removeIfExists, options, closure)
    ensures c in RemovingObserver(cs, o)
    ensures c !in RemovingNil(cs)
  {
  }

  // ----- the container -----

  class Observable<T> {
    /** The held value; `SetValue` is its setter together with the `didSet` observer. */
    var value: T
    /** `private var callbacks: [Callback]`, in registration order. */
    var callbacks: seq<Callback>
    /** Every closure call made so far, oldest first. */
    var log: seq<Delivery<T>>

    /** `init(_ value:)`: assigning in the initialiser does not run `didSet`. */
    constructor (value: T)
      ensures this.value == value && callbacks == [] && log == []
    {
      this.value := value;
      callbacks := [];
      log := [];
    }

    /** `value = newValue`, followed by its `didSet`. */
    method SetValue(newValue: T)
      modifies this
      ensures value == newValue
      ensures callbacks == RemovingNil(old(callbacks))
      ensures forall c :: c in callbacks ==> c.observer != Nil
      ensures log == old(log) + SetDeliveries(old(callbacks), old(value), newValue)
    {
      var oldValue := value;
      value := newValue;
      RemoveNilObserverCallbacks();
      ghost var before, live := log, callbacks;
      assert SetDeliveries(old(callbacks), oldValue, newValue)
          == Notifications(live, oldValue, Old) + Notifications(live, newValue, New);
      NotifyCallbacks(oldValue, Old);
      NotifyCallbacks(value, New);
      assert log == before + (Notifications(live, oldValue, Old) + Notifications(live, newValue, New));
    }

    /** `addObserver(_:removeIfExists:options:closure:)` with its two defaults. */
    method AddObserver(observer: ObserverId, removeIfExists: bool := true,
                       options: seq<ObservableOptions> := [New], closure: ClosureId)
      modifies this`callbacks, this`log
      ensures value == old(value)
      ensures callbacks == Registered(old(callbacks), observer, removeIfExists, options, closure)
      ensures log == old(log) + if Initial in options
        then [Delivery(Callback(Ref(observer), options, closure), value, Initial)]
        else []
    {
      if removeIfExists {
        RemoveObserver(observer);
      }
      var callback := Callback(Ref(observer), options, closure);
      callbacks := callbacks + [callback];
      if Contains(options, Initial) {
        Call(callback, value, Initial);
      }
    }

    /** `removeObserver(_:)` */
    method RemoveObserver(observer: ObserverId)
      modifies this`callbacks
      ensures callbacks == RemovingObserver(old(callbacks), observer)
    {
      callbacks := RemovingObserver(callbacks, observer);
    }

    /** `removeNilObserverCallbacks()` */
    method RemoveNilObserverCallbacks()
      modifies this`callbacks
      ensures callbacks == RemovingNil(old(callbacks))
    {
      callbacks := RemovingNil(callbacks);
    }

    /** `notifyCallbacks(value:option:)`: filter a snapshot, then call each closure in turn. */
    method NotifyCallbacks(v: T, option: ObservableOptions)
      modifies this`log
      ensures log == old(log) + Notifications(callbacks, v, option)
    {
      var toNotify := ToNotify(callbacks, option);
      NotificationsFollowFilter(callbacks, v, option);
      CallEach(toNotify, v, option);
    }

    /** `forEach { $0.closure(value, option) }` over the snapshot `rs`. */
    method CallEach(rs: seq<Callback>, v: T, option: ObservableOptions)
      modifies this`log
      ensures log == old(log) + Deliveries(rs, v, option)
    {
      ghost var calls := Deliveries(rs, v, option);
      var i := 0;
      while i < |rs|
        invariant 0 <= i <= |rs|
        invariant log == old(log) + calls[..i]
      {
        Call(rs[i], v, option);
        assert calls[..i + 1] == calls[..i] + [calls[i]];
        i := i + 1;
      }
      assert calls[..i] == calls;
    }

    /** `closure(value, option)` of the record `callback`. */
    method Call(callback: Callback, v: T, option: ObservableOptions)
      modifies this`log
      ensures log == old(log) + [Delivery(callback, v, option)]
    {
      log := log + [Delivery(callback, v, option)];
    }

    /**
     * Not a member of the source: the runtime deallocating `observer`, which
     * turns every weak reference to it into nil.
     */
    method ObserverDeallocated(observer: ObserverId)
      modifies this`callbacks
      ensures callbacks == Released(old(callbacks), observer)
    {
      callbacks := Released(callbacks, observer);
    }
  }

  // ----- uses of the container -----

  /** The list of `OldBeforeNewScenario`, and the calls its one set makes. */
  lemma OldBeforeNewCalls(c1: Callback, c2: Callback)
    requires c1 == Callback(Ref(1), [Old, New], 10) && c2 == Callback(Ref(2), [New], 20)
    ensures Registered(Registered([], 1, true, [Old, New], 10), 2, true, [New], 20) == [c1, c2]
    ensures RemovingNil([c1, c2]) == [c1, c2]
    ensures SetDeliveries([c1, c2], 0, 1) == [Delivery(c1, 0, Old), Delivery(c1, 1, New), Delivery(c2, 1, New)]
  {
    OptionConstants();
    assert RemovingObserver([c1], 2) == [c1];
    assert [c1, c2][1..] == [c2];
    assert Notifications([c1, c2], 0, Old) == [Delivery(c1, 0, Old)];
    assert Notifications([c1, c2], 1, New) == [Delivery(c1, 1, New), Delivery(c2, 1, New)];
  }

  /**
   * Listener 1 subscribes to old and new values, then listener 2 to new
   * values only; one set calls 1 with the old value, 1 with the new value,
   * then 2 with the new value.
   */
  method OldBeforeNewScenario() returns (log: seq<Delivery<int>>)
    ensures log == [Delivery(Callback(Ref(1), [Old, New], 10), 0, Old),
                    Delivery(Callback(Ref(1), [Old, New], 10), 1, New),
                    Delivery(Callback(Ref(2), [New], 20), 1, New)]
  {
    OptionConstants();
    var c1, c2 := Callback(Ref(1), [Old, New], 10), Callback(Ref(2), [New], 20);
    OldBeforeNewCalls(c1, c2);
    var name := new Observable(0);
    name.AddObserver(1, options := [Old, New], closure := 10);
    name.AddObserver(2, closure := 20);
    name.SetValue(1);
    log := name.log;
  }

  /** The list of `DeallocatedObserverScenario` once observer 1 is gone. */
  lemma DeallocatedObserverList(c1: Callback, c2: Callback)
    requires c1 == Callback(Ref(1), [Initial, New], 10) && c2 == Callback(Ref(2), [New], 20)
    ensures Registered(Registered([], 1, true, [Initial, New], 10), 2, true, [New], 20) == [c1, c2]
    ensures Released([c1, c2], 1) == [c1.(observer := Nil), c2]
  {
  }

  /** The set of `DeallocatedObserverScenario` prunes the dead record and calls only listener 2. */
  lemma DeallocatedObserverCalls(dead: Callback, c2: Callback)
    requires dead == Callback(Nil, [Initial, New], 10) && c2 == Callback(Ref(2), [New], 20)
    ensures RemovingNil([dead, c2]) == [c2]
    ensures SetDeliveries([dead, c2], 0, 1) == [Delivery(c2, 1, New)]
  {
  }

  /**
   * A listener registered with `[.initial, .new]` is called at once with the
   * current value; once its observer is deallocated it is never called again
   * and its record is gone after the next set.
   */
  method DeallocatedObserverScenario() returns (log: seq<Delivery<int>>, callbacks: seq<Callback>)
    ensures log == [Delivery(Callback(Ref(1), [Initial, New], 10), 0, Initial),
                    Delivery(Callback(Ref(2), [New], 20), 1, New)]
    ensures callbacks == [Callback(Ref(2), [New], 20)]
  {
    var c2, dead := Callback(Ref(2), [New], 20), Callback(Nil, [Initial, New], 10);
    var name := RegisterThenDeallocate();
    DeallocatedObserverCalls(dead, c2);
    name.SetValue(1);
    log := name.log;
    callbacks := name.callbacks;
  }

  /** The first three steps of `DeallocatedObserverScenario`. */
  method RegisterThenDeallocate() returns (name: Observable<int>)
    ensures fresh(name) && name.value == 0
    ensures name.callbacks == [Callback(Nil, [Initial, New], 10), Callback(Ref(2), [New], 20)]
    ensures name.log == [Delivery(Callback(Ref(1), [Initial, New], 10), 0, Initial)]
  {
    OptionConstants();
    var c1, c2 := Callback(Ref(1), [Initial, New], 10), Callback(Ref(2), [New], 20);
    DeallocatedObserverList(c1, c2);
    name := new Observable(0);
    name.AddObserver(1, options := [Initial, New], closure := 10);
    assert name.log == [Delivery(c1, 0, Initial)];
    name.AddObserver(2, closure := 20);
    assert name.callbacks == [c1, c2];
    name.ObserverDeallocated(1);
  }
}
