/** Stock observables that alert their observers when a stock comes back from zero. */
module Observer {

  /** How an observer delivers its alert. */
  datatype Channel = Mobile | Email

  /** A mobile alert observer (identified by a user name) or an e-mail alert observer
      (identified by an address). Observers are compared by identity, as the pointers
      held in the observable's set are. */
  class AlertObserver {
    const channel: Channel
    const address: string

    constructor (channel: Channel, address: string)
      ensures this.channel == channel && this.address == address
    {
      this.channel := channel;
      this.address := address;
    }

    /** `update`: the alert sent, carrying the stock count the observer reads back. */
    function Update(observable: StocksObservable): (a: Alert)
      reads observable
      ensures a.observer == this && a.stockCount == observable.stockCount
    {
      Alert(this, observable.stockCount)
    }
  }

  /** One alert line: which observer was told, and the stock count it was told. */
  datatype Alert = Alert(observer: AlertObserver, stockCount: int)

  /** The observers a sequence of alerts reached, with multiplicity. */
  function Recipients(alerts: seq<Alert>): (r: multiset<AlertObserver>)
    ensures |r| == |alerts|
  {
    if alerts == [] then multiset{} else Recipients(alerts[..|alerts| - 1]) + multiset{alerts[|alerts| - 1].observer}
  }

  /** Every observer in `observers` alerted exactly once, nobody else alerted, and each
      alert carrying `count`. */
  ghost predicate IsBroadcast(alerts: seq<Alert>, observers: set<AlertObserver>, count: int) {
    && Recipients(alerts) == multiset(observers)
    && forall i | 0 <= i < |alerts| :: alerts[i].stockCount == count
  }

  /** An observer is among the recipients exactly when some alert is addressed to it. */
  lemma {:induction false} RecipientsMembership(alerts: seq<Alert>, observer: AlertObserver)
    ensures observer in Recipients(alerts) <==> exists i | 0 <= i < |alerts| :: alerts[i].observer == observer
    decreases |alerts|
  {
    if alerts != [] {
      var init := alerts[..|alerts| - 1];
      RecipientsMembership(init, observer);
      if observer in Recipients(init) {
        var i :| 0 <= i < |init| && init[i].observer == observer;
        assert alerts[i].observer == observer;
      }
      if i :| 0 <= i < |alerts| - 1 && alerts[i].observer == observer {
        assert init[i].observer == observer;
      }
    }
  }

  /** A broadcast alerts as many times as there are observers, alerts only observers in the
      set, and reaches each of them, so each exactly once. */
  lemma BroadcastReachesEachObserverOnce(alerts: seq<Alert>, observers: set<AlertObserver>, count: int)
    requires IsBroadcast(alerts, observers, count)
    ensures |alerts| == |observers|
    ensures forall i | 0 <= i < |alerts| :: alerts[i].observer in observers
    ensures forall o | o in observers :: exists i | 0 <= i < |alerts| :: alerts[i].observer == o
    ensures forall i, j | 0 <= i < j < |alerts| :: alerts[i].observer != alerts[j].observer
  {
    assert |multiset(observers)| == |observers|;
    forall i | 0 <= i < |alerts| ensures alerts[i].observer in observers {
      RecipientsMembership(alerts, alerts[i].observer);
    }
    forall o | o in observers ensures exists i | 0 <= i < |alerts| :: alerts[i].observer == o {
      RecipientsMembership(alerts, o);
    }
    forall i, j | 0 <= i < j < |alerts| ensures alerts[i].observer != alerts[j].observer {
      if alerts[i].observer == alerts[j].observer {
        TwoAlertsCountTwice(alerts, i, j);
      }
    }
  }

  /** Two alerts to the same observer give it multiplicity at least two among the recipients. */
  lemma {:induction false} TwoAlertsCountTwice(alerts: seq<Alert>, i: nat, j: nat)
    requires i < j < |alerts| && alerts[i].observer == alerts[j].observer
    ensures Recipients(alerts)[alerts[i].observer] >= 2
    decreases |alerts|
  {
    var init := alerts[..|alerts| - 1];
    if j < |alerts| - 1 {
      assert init[i] == alerts[i] && init[j] == alerts[j];
      TwoAlertsCountTwice(init, i, j);
    } else {
      assert init[i] == alerts[i];
      RecipientsMembership(init, alerts[i].observer);
    }
  }

  /** An iPhone or Samsung stock observable: the two classes of the source have the
      same fields and the same bodies. */
  class StocksObservable {
    var observerList: set<AlertObserver>
    var stockCount: int

    /** A new observable has no observers and a stock count of 0. */
    constructor ()
      ensures observerList == {} && stockCount == 0
    {
      observerList := {};
      stockCount := 0;
    }

    /** `add` inserts into the set, so adding an observer twice keeps one copy. */
    method Add(observer: AlertObserver)
      modifies this
      ensures observerList == old(observerList) + {observer}
      ensures stockCount == old(stockCount)
    {
      observerList := observerList + {observer};
    }

    /** `remove` erases from the set; removing an absent observer changes nothing. */
    method Remove(observer: AlertObserver)
      modifies this
      ensures observerList == old(observerList) - {observer}
      ensures stockCount == old(stockCount)
    {
      observerList := observerList - {observer};
    }

    /** `notify` calls `update` on each registered observer once, in an unspecified order. */
    method Notify() returns (alerts: seq<Alert>)
      ensures IsBroadcast(alerts, observerList, stockCount)
    {
      alerts := [];
      var pending := observerList;
      while pending != {}
        invariant pending <= observerList
        invariant Recipients(alerts) + multiset(pending) == multiset(observerList)
        invariant forall i | 0 <= i < |alerts| :: alerts[i].stockCount == stockCount
        decreases pending
      {
        var observer :| observer in pending;
        alerts := alerts + [observer.Update(this)];
        assert multiset(pending) == multiset(pending - {observer}) + multiset{observer};
        pending := pending - {observer};
      }
    }

    /** `setStockCount` always stores the new count; only when the previous count was 0
        does it notify, and then after the store, so every alert carries the new count. */
    method SetStockCount(stock: int) returns (alerts: seq<Alert>)
      modifies this
      ensures stockCount == stock && observerList == old(observerList)
      ensures old(stockCount) == 0 ==> IsBroadcast(alerts, observerList, stock)
      ensures old(stockCount) != 0 ==> alerts == []
    {
      if stockCount == 0 {
        stockCount := stock;
        alerts := Notify();
      } else {
        stockCount := stock;
        alerts := [];
      }
    }

    /** `getStockCount` returns the stored count. */
    method GetStockCount() returns (count: int)
      ensures count == stockCount
    {
      count := stockCount;
    }
  }

  /** The demonstration: three observers on the iPhone stock and one on the Samsung stock.
      Both counts start at 0, so both updates notify: each iPhone observer once with 10,
      and the third observer, registered with both stocks, once more with 5. */
  method Demo() returns (observer1: AlertObserver, observer2: AlertObserver, observer3: AlertObserver,
                         iphoneAlerts: seq<Alert>, samsungAlerts: seq<Alert>)
    ensures Recipients(iphoneAlerts) == multiset{observer1, observer2, observer3}
    ensures |iphoneAlerts| == 3 && forall i | 0 <= i < 3 :: iphoneAlerts[i].stockCount == 10
    ensures Recipients(samsungAlerts) == multiset{observer3}
    ensures |samsungAlerts| == 1 && samsungAlerts[0].stockCount == 5
  {
    var iphone := new StocksObservable();
    var samsung := new StocksObservable();
    observer1 := new AlertObserver(Mobile, "samyak");
    observer2 := new AlertObserver(Mobile, "shreya");
    observer3 := new AlertObserver(Email, "Aishik@gamil.com");
    iphone.Add(observer1);
    iphone.Add(observer2);
    iphone.Add(observer3);
    samsung.Add(observer3);
    iphoneAlerts := iphone.SetStockCount(10);
    samsungAlerts := samsung.SetStockCount(5);
  }

  /** Only a transition away from 0 notifies: setting 0 on 0 still notifies, while any
      update from a non-zero count, back to 0 included, is silent. */
  method ZeroTransitionDemo(observer: AlertObserver) returns (first: seq<Alert>, second: seq<Alert>, third: seq<Alert>)
    ensures |first| == 1 && first[0].stockCount == 0
    ensures |second| == 1 && second[0].stockCount == 3
    ensures third == []
  {
    var stock := new StocksObservable();
    stock.Add(observer);
    first := stock.SetStockCount(0);
    second := stock.SetStockCount(3);
    third := stock.SetStockCount(0);
  }
}
