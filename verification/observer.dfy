/**
 * The observer pattern exercise: a `StockMarket` subject keeps a duplicate-free list of
 * observers and, when its price changes, tells each of them the stock name and the
 * new price in registration order. Console output is kept as an event trace.
 */
module StockObserver {

  datatype ObserverKind = MobileApp | WebApp

  /** A `MobileApp` or `WebApp` observer; observers are compared by reference, as `List.Contains` does. */
  class Observer {
    const kind: ObserverKind
    /** `_appName` of a mobile app, `_appType` of a web app. */
    const name: string

    constructor (kind: ObserverKind, name: string)
      ensures this.kind == kind && this.name == name
    {
      this.kind := kind;
      this.name := name;
    }
  }

  /** One console line, or one `Update` call on an observer (which prints its own line). */
  datatype Event =
    | MarketCreated(stockName: string, price: real)
    | Registered(kind: ObserverKind)
    | Deregistered(kind: ObserverKind)
    | PriceChanged(stockName: string, price: real)
    | Notifying(count: nat, stockName: string)
    | Updated(observer: Observer, stockName: string, price: real)

  predicate NoDuplicates(s: seq<Observer>) {
    forall i, j :: 0 <= i < j < |s| ==> s[i] != s[j]
  }

  /** The `Update` calls of one notification round, one per registered observer, in list order. */
  function Broadcast(observers: seq<Observer>, stockName: string, price: real): (events: seq<Event>)
    ensures |events| == |observers|
    ensures forall i :: 0 <= i < |observers| ==> events[i] == Updated(observers[i], stockName, price)
  {
    seq(|observers|, i requires 0 <= i < |observers| => Updated(observers[i], stockName, price))
  }

  /** What a price change prints and calls: the change, the observer count, then one round of updates. */
  function PriceChangeEvents(observers: seq<Observer>, stockName: string, price: real): seq<Event> {
    [PriceChanged(stockName, price), Notifying(|observers|, stockName)] + Broadcast(observers, stockName, price)
  }

  /** The observers an event trace delivers updates to, in order. */
  function Recipients(events: seq<Event>): seq<Observer>
    decreases |events|
  {
    if events == [] then []
    else if events[0].Updated? then [events[0].observer] + Recipients(events[1..])
    else Recipients(events[1..])
  }

  lemma {:induction false} RecipientsAppend(a: seq<Event>, b: seq<Event>)
    ensures Recipients(a + b) == Recipients(a) + Recipients(b)
    decreases |a|
  {
    if a == [] {
      assert a + b == b;
    } else {
      assert (a + b)[1..] == a[1..] + b;
      RecipientsAppend(a[1..], b);
    }
  }

  /** A notification round reaches exactly the registered observers, in registration order. */
  lemma {:induction false} BroadcastReachesObservers(observers: seq<Observer>, stockName: string, price: real)
    ensures Recipients(Broadcast(observers, stockName, price)) == observers
    decreases |observers|
  {
    if observers != [] {
      var b := Broadcast(observers, stockName, price);
      assert b[1..] == Broadcast(observers[1..], stockName, price);
      BroadcastReachesObservers(observers[1..], stockName, price);
    }
  }

  /** In a duplicate-free list every observer occurs once, and others not at all. */
  lemma {:induction false} OccursOnce(s: seq<Observer>, o: Observer)
    requires NoDuplicates(s)
    ensures multiset(s)[o] == if o in s then 1 else 0
    decreases |s|
  {
    if s != [] {
      assert s == [s[0]] + s[1..];
      OccursOnce(s[1..], o);
      if o == s[0] {
        assert o !in s[1..];
      }
    }
  }

  /** Each registered observer gets exactly one update per price change; an unregistered one gets none. */
  lemma NotifiedOncePerChange(observers: seq<Observer>, o: Observer, stockName: string, price: real)
    requires NoDuplicates(observers)
    ensures multiset(Recipients(Broadcast(observers, stockName, price)))[o] == if o in observers then 1 else 0
  {
    BroadcastReachesObservers(observers, stockName, price);
    OccursOnce(observers, o);
  }

  /** `List.Remove`: drops the first occurrence, if any. */
  function RemoveFirst(s: seq<Observer>, o: Observer): (r: seq<Observer>)
    ensures o !in s ==> r == s
    ensures o in s ==> |r| == |s| - 1 && multiset(r) + multiset{o} == multiset(s)
    ensures forall x :: x in r ==> x in s
    decreases |s|
  {
    if s == [] then s
    else if s[0] == o then
      assert s == [s[0]] + s[1..];
      s[1..]
    else
      var r := [s[0]] + RemoveFirst(s[1..], o);
      assert s == [s[0]] + s[1..];
      r
  }

  /** Removing from a duplicate-free list removes the observer altogether and keeps the rest duplicate-free. */
  lemma {:induction false} RemoveFirstFromNoDuplicates(s: seq<Observer>, o: Observer)
    requires NoDuplicates(s)
    ensures o !in RemoveFirst(s, o)
    ensures NoDuplicates(RemoveFirst(s, o))
    decreases |s|
  {
    if s != [] {
      assert s[0] !in s[1..];
      assert NoDuplicates(s[1..]);
      if s[0] != o {
        RemoveFirstFromNoDuplicates(s[1..], o);
        var rest := RemoveFirst(s[1..], o);
        assert RemoveFirst(s, o) == [s[0]] + rest;
      }
    }
  }

  /** The subject; `stockName` is fixed at construction. */
  class StockMarket {
    var observers: seq<Observer>
    const stockName: string
    var currentPrice: real
    var events: seq<Event>

    ghost predicate Valid()
      reads this
    {
      NoDuplicates(observers)
    }

    constructor (stockName: string, initialPrice: real)
      ensures Valid()
      ensures this.stockName == stockName && currentPrice == initialPrice && observers == []
      ensures events == [MarketCreated(stockName, initialPrice)]
    {
      this.stockName := stockName;
      currentPrice := initialPrice;
      observers := [];
      events := [MarketCreated(stockName, initialPrice)];
    }

    /** Adds the observer at the end unless it is already registered. */
    method RegisterObserver(o: Observer)
      requires Valid()
      modifies this
      ensures Valid()
      ensures currentPrice == old(currentPrice)
      ensures o in old(observers) ==> observers == old(observers) && events == old(events)
      ensures o !in old(observers) ==> observers == old(observers) + [o] && events == old(events) + [Registered(o.kind)]
    {
      if o !in observers {
        observers := observers + [o];
        events := events + [Registered(o.kind)];
      }
    }

    /** Removes the observer if registered; otherwise nothing changes. */
    method DeregisterObserver(o: Observer)
      requires Valid()
      modifies this
      ensures Valid()
      ensures o !in observers
      ensures currentPrice == old(currentPrice)
      ensures observers == RemoveFirst(old(observers), o)
      ensures o in old(observers) ==> events == old(events) + [Deregistered(o.kind)]
      ensures o !in old(observers) ==> observers == old(observers) && events == old(events)
    {
      RemoveFirstFromNoDuplicates(observers, o);
      if o in observers {
        observers := RemoveFirst(observers, o);
        events := events + [Deregistered(o.kind)];
      }
    }

    /** Announces the count, then calls `Update(stockName, currentPrice)` on each observer in order. */
    method NotifyObservers()
      modifies this
      ensures observers == old(observers) && currentPrice == old(currentPrice)
      ensures events == old(events) + [Notifying(|observers|, stockName)] + Broadcast(observers, stockName, currentPrice)
    {
      events := events + [Notifying(|observers|, stockName)];
      var start := events;
      var i := 0;
      while i < |observers|
        invariant 0 <= i <= |observers|
        invariant observers == old(observers) && currentPrice == old(currentPrice)
        invariant events == start + Broadcast(observers[..i], stockName, currentPrice)
      {
        assert observers[..i + 1] == observers[..i] + [observers[i]];
        events := events + [Updated(observers[i], stockName, currentPrice)];
        i := i + 1;
      }
      assert observers[..i] == observers;
    }

    /** The `CurrentPrice` setter: an unchanged price does nothing; a new one is stored and then announced. */
    method SetCurrentPrice(value: real)
      requires Valid()
      modifies this
      ensures Valid()
      ensures observers == old(observers)
      ensures value == old(currentPrice) ==> currentPrice == old(currentPrice) && events == old(events)
      ensures value != old(currentPrice) ==>
        currentPrice == value && events == old(events) + PriceChangeEvents(observers, stockName, value)
    {
      if currentPrice != value {
        currentPrice := value;
        events := events + [PriceChanged(stockName, value)];
        NotifyObservers();
      }
    }
  }

  /** After deregistration, a price change delivers nothing to the removed observer, and one update to each other. */
  lemma DeregisteredObserverIsSkipped(observers: seq<Observer>, o: Observer, stockName: string, price: real)
    requires NoDuplicates(observers)
    ensures var round := PriceChangeEvents(RemoveFirst(observers, o), stockName, price);
      o !in Recipients(round) &&
      forall x :: x in observers && x != o ==> multiset(Recipients(round))[x] == 1
  {
    var rest := RemoveFirst(observers, o);
    RemoveFirstFromNoDuplicates(observers, o);
    var head := [PriceChanged(stockName, price), Notifying(|rest|, stockName)];
    RecipientsAppend(head, Broadcast(rest, stockName, price));
    assert Recipients(head) == [];
    BroadcastReachesObservers(rest, stockName, price);
    forall x | x in observers && x != o
      ensures multiset(Recipients(PriceChangeEvents(rest, stockName, price)))[x] == 1
    {
      assert multiset(rest)[x] == multiset(observers)[x] by {
        if o in observers {
          assert multiset(rest) + multiset{o} == multiset(observers);
        }
      }
      OccursOnce(observers, x);
    }
  }
}
