/**
 * The observer side of the notification system: an observable that holds
 * the current notification and an ordered list of observers, a logger that
 * records the current content, and a notification engine that hands the
 * current content to every registered delivery strategy.
 *
 * Console output is recorded rather than printed: an update returns what
 * it would have written or delivered.
 */
module Observers {
  import opened Notifications

  datatype Option<T> = None | Some(value: T)

  /** A delivery strategy (e-mail, SMS, pop-up), known only by its identity. */
  type StrategyId = nat

  /** One call of a strategy's send operation, with the content it was given. */
  datatype Delivery = Delivery(strategy: StrategyId, content: string)

  /**
   * A subscribed observer. Two references are equal when they name the same
   * object, as with the default equality the observer list relies on.
   */
  datatype ObserverRef = LoggerRef(logger: Logger) | EngineRef(engine: NotificationEngine)

  /** The text the logger writes in front of the content. */
  const LogPrefix: string := "New notification: "

  /** The position of the first occurrence of `x` in `s`. */
  function FirstIndex<T(==)>(s: seq<T>, x: T): (i: nat)
    requires x in s
    ensures i < |s| && s[i] == x && x !in s[..i]
  {
    if s[0] == x then 0
    else
      var j := FirstIndex(s[1..], x);
      assert s[1..][..j] == s[1..j + 1];
      assert s[..j + 1] == [s[0]] + s[1..j + 1];
      j + 1
  }

  /**
   * `s` without the first occurrence of `x`; `s` itself when `x` does not
   * occur. The others keep their relative order.
   */
  function RemoveFirst<T(==)>(s: seq<T>, x: T): (r: seq<T>)
    ensures x !in s ==> r == s
    ensures x in s ==> r == s[..FirstIndex(s, x)] + s[FirstIndex(s, x) + 1..]
  {
    if s == [] then []
    else if s[0] == x then s[1..]
    else
      var rest := RemoveFirst(s[1..], x);
      assert s == [s[0]] + s[1..];
      RemoveFirstCons(s, x, rest);
      [s[0]] + rest
  }

  /** The step of `RemoveFirst` past a head that is not `x`. */
  lemma RemoveFirstCons<T>(s: seq<T>, x: T, rest: seq<T>)
    requires s != [] && s[0] != x
    requires x !in s[1..] ==> rest == s[1..]
    requires x in s[1..] ==> rest == s[1..][..FirstIndex(s[1..], x)] + s[1..][FirstIndex(s[1..], x) + 1..]
    ensures x !in s ==> [s[0]] + rest == s
    ensures x in s ==> [s[0]] + rest == s[..FirstIndex(s, x)] + s[FirstIndex(s, x) + 1..]
  {
    assert s == [s[0]] + s[1..];
    if x in s {
      var j := FirstIndex(s[1..], x);
      assert FirstIndex(s, x) == j + 1;
      assert s[..j + 1] == [s[0]] + s[1..][..j];
      assert s[j + 2..] == s[1..][j + 1..];
    }
  }

  /** Unsubscribing takes away exactly one subscription of `x`, if it has one, and no other. */
  lemma {:induction false} RemoveFirstMultiset<T>(s: seq<T>, x: T)
    ensures multiset(RemoveFirst(s, x)) == multiset(s) - multiset{x}
  {
    if s != [] {
      assert s == [s[0]] + s[1..];
      if s[0] != x {
        RemoveFirstMultiset(s[1..], x);
        assert RemoveFirst(s, x) == [s[0]] + RemoveFirst(s[1..], x);
      }
    }
  }

  /**
   * Subscribing and then unsubscribing an observer: when it was not yet
   * subscribed the list is as before; when it already was, its earlier
   * entry goes and the new one stays at the end.
   */
  lemma {:induction false} RemoveFirstAfterAppend<T>(s: seq<T>, x: T)
    ensures RemoveFirst(s + [x], x) == if x in s then RemoveFirst(s, x) + [x] else s
  {
    if s == [] {
      assert [] + [x] == [x];
    } else {
      assert (s + [x])[1..] == s[1..] + [x];
      RemoveFirstAfterAppend(s[1..], x);
      if s[0] != x {
        assert x in s <==> x in s[1..];
        if x in s {
          calc {
            RemoveFirst(s + [x], x);
            [s[0]] + RemoveFirst(s[1..] + [x], x);
            [s[0]] + (RemoveFirst(s[1..], x) + [x]);
            ([s[0]] + RemoveFirst(s[1..], x)) + [x];
            RemoveFirst(s, x) + [x];
          }
        } else {
          assert s == [s[0]] + s[1..];
        }
      }
    }
  }

  /** The deliveries of `content` to each of `strategies`, in their order. */
  function FanOut(strategies: seq<StrategyId>, content: string): (ds: seq<Delivery>)
    ensures |ds| == |strategies|
    ensures forall i :: 0 <= i < |ds| ==> ds[i] == Delivery(strategies[i], content)
  {
    if strategies == [] then []
    else [Delivery(strategies[0], content)] + FanOut(strategies[1..], content)
  }

  /**
   * Registering one more strategy adds exactly one delivery, to it, at the
   * end of every later fan-out, and changes none of the earlier ones.
   */
  lemma FanOutAfterAppend(strategies: seq<StrategyId>, s: StrategyId, content: string)
    ensures FanOut(strategies + [s], content) == FanOut(strategies, content) + [Delivery(s, content)]
  {
    var l := FanOut(strategies + [s], content);
    var r := FanOut(strategies, content) + [Delivery(s, content)];
    assert |l| == |r|;
    forall i | 0 <= i < |l| ensures l[i] == r[i] {
    }
  }

  /**
   * A strategy receives as many deliveries as it has registrations, and
   * every delivery carries the same content.
   */
  lemma {:induction false} FanOutMultiplicity(strategies: seq<StrategyId>, s: StrategyId, content: string)
    ensures multiset(FanOut(strategies, content))[Delivery(s, content)] == multiset(strategies)[s]
    ensures forall d :: d in FanOut(strategies, content) ==> d.content == content
  {
    if strategies != [] {
      FanOutMultiplicity(strategies[1..], s, content);
      assert strategies == [strategies[0]] + strategies[1..];
    }
  }

  class NotificationObservable {
    /** The subscribed observers, in the order they subscribed. */
    var observers: seq<ObserverRef>
    /** The current notification; `None` stands for a null reference. */
    var current: Option<Notification>

    constructor ()
      ensures observers == [] && current == None
    {
      observers := [];
      current := None;
    }

    /** Subscribes `o` at the end of the list, even when it is subscribed already. */
    method AddObserver(o: ObserverRef)
      modifies this`observers
      ensures observers == old(observers) + [o]
    {
      observers := observers + [o];
    }

    /** Unsubscribes the first subscription of `o`, if there is one. */
    method RemoveObserver(o: ObserverRef)
      modifies this`observers
      ensures observers == RemoveFirst(old(observers), o)
    {
      observers := RemoveFirst(observers, o);
    }

    /**
     * Calls update on every subscribed observer, in subscription order,
     * once per subscription; returns the observers in the order they were
     * updated.
     */
    method NotifyObserver() returns (updated: seq<ObserverRef>)
      ensures |updated| == |observers|
      ensures forall i :: 0 <= i < |updated| ==> updated[i] == observers[i]
    {
      updated := [];
      for i := 0 to |observers|
        invariant updated == observers[..i]
      {
        updated := updated + [observers[i]];
      }
    }

    /** The current notification, null included. */
    method GetNotification() returns (n: Option<Notification>)
      ensures n == current
    {
      n := current;
    }

    /**
     * The content of the current notification, rendered with the clock
     * readings from `tick` on. The current notification must not be null.
     */
    method GetNotificationContent(clock: Clock, tick: nat) returns (content: string)
      requires current.Some?
      ensures content == Render(current.value, clock, tick)
    {
      content := Render(current.value, clock, tick);
    }
  }

  class Logger {
    /** The observable whose current notification the logger records. */
    const observable: NotificationObservable

    constructor (observable: NotificationObservable)
      ensures this.observable == observable
    {
      this.observable := observable;
    }

    /** The line the logger writes for the current content. */
    method Update(clock: Clock, tick: nat) returns (line: string)
      requires observable.current.Some?
      ensures line == LogPrefix + Render(observable.current.value, clock, tick)
    {
      var content := observable.GetNotificationContent(clock, tick);
      line := LogPrefix + content;
    }
  }

  class NotificationEngine {
    /** The observable whose current notification the engine delivers. */
    const observable: NotificationObservable
    /** The registered delivery strategies, in registration order. */
    var strategies: seq<StrategyId>

    constructor (observable: NotificationObservable)
      ensures this.observable == observable && strategies == []
    {
      this.observable := observable;
      strategies := [];
    }

    /** Registers `s` after the strategies already registered. */
    method AddNotificationStrategy(s: StrategyId)
      modifies this`strategies
      ensures strategies == old(strategies) + [s]
    {
      strategies := strategies + [s];
    }

    /**
     * Reads the current content once and sends that same text to every
     * registered strategy, in registration order, once per registration.
     */
    method Update(clock: Clock, tick: nat) returns (deliveries: seq<Delivery>)
      requires observable.current.Some?
      ensures |deliveries| == |strategies|
      ensures forall i :: 0 <= i < |deliveries| ==>
                deliveries[i] == Delivery(strategies[i], Render(observable.current.value, clock, tick))
      ensures deliveries == FanOut(strategies, Render(observable.current.value, clock, tick))
    {
      var content := observable.GetNotificationContent(clock, tick);
      deliveries := [];
      for i := 0 to |strategies|
        invariant deliveries == FanOut(strategies[..i], content)
      {
        FanOutAfterAppend(strategies[..i], strategies[i], content);
        assert strategies[..i + 1] == strategies[..i] + [strategies[i]];
        deliveries := deliveries + [Delivery(strategies[i], content)];
      }
      assert strategies[..|strategies|] == strategies;
    }
  }
}
