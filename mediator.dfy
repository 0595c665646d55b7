/** An auction in which bidders talk only to a mediator, which relays each bid to the others. */
module Mediator {

  /** A bidder, bound for life to the mediator it registered with. Bidders are compared
      by identity, as the pointers in the mediator's set are. */
  class Bidder {
    const name: string
    const auctionMediator: AuctionMediator

    /** Constructing a bidder registers it with its mediator. */
    constructor (name: string, auctionMediator: AuctionMediator)
      modifies auctionMediator
      ensures this.name == name && this.auctionMediator == auctionMediator
      ensures auctionMediator.bidders == old(auctionMediator.bidders) + {this}
    {
      this.name := name;
      this.auctionMediator := auctionMediator;
      new;
      auctionMediator.AddBidder(this);
    }

    /** `placeBid` hands the bid to the mediator, which tells every other registered bidder. */
    method PlaceBid(bidAmount: int) returns (notifications: seq<Notification>)
      ensures IsRelay(notifications, auctionMediator.bidders - {this}, name, bidAmount)
    {
      notifications := auctionMediator.PlaceBid(this, bidAmount);
    }
  }

  /** One `receiveBidNotification` call: the bidder told, and the bidder name and amount it is told. */
  datatype Notification = Notification(recipient: Bidder, bidderName: string, bidAmount: int)

  /** The bidders a sequence of notifications reached, with multiplicity. */
  function Recipients(notifications: seq<Notification>): (r: multiset<Bidder>)
    ensures |r| == |notifications|
  {
    if notifications == [] then multiset{}
    else Recipients(notifications[..|notifications| - 1]) + multiset{notifications[|notifications| - 1].recipient}
  }

  /** Every bidder in `recipients` told exactly once, nobody else told, and each told of
      the bid of `bidderName` for `bidAmount`. */
  ghost predicate IsRelay(notifications: seq<Notification>, recipients: set<Bidder>, bidderName: string, bidAmount: int) {
    && Recipients(notifications) == multiset(recipients)
    && forall i | 0 <= i < |notifications| ::
         notifications[i].bidderName == bidderName && notifications[i].bidAmount == bidAmount
  }

  /** One step of the relay loop: visiting `visited` from the bidders still to visit
      notifies it unless it is the bidder, and moves it out of the pending set. */
  lemma RelayStep(notifications: seq<Notification>, pending: set<Bidder>, visited: Bidder, bidder: Bidder, bidAmount: int)
    requires visited in pending
    ensures
      var next := if visited != bidder then notifications + [Notification(visited, bidder.name, bidAmount)] else notifications;
      Recipients(next) + multiset(pending - {visited} - {bidder}) == Recipients(notifications) + multiset(pending - {bidder})
  {
  }

  /** The mediator: the set of registered bidders. */
  class AuctionMediator {
    var bidders: set<Bidder>

    constructor ()
      ensures bidders == {}
    {
      bidders := {};
    }

    /** `addBidder` inserts into the set, so registering a bidder twice keeps one copy. */
    method AddBidder(bidder: Bidder)
      modifies this
      ensures bidders == old(bidders) + {bidder}
    {
      bidders := bidders + {bidder};
    }

    /** `placeBid` notifies every registered bidder except the one bidding, once each, in
        an unspecified order; the set of bidders is left as it is. */
    method PlaceBid(bidder: Bidder, bidAmount: int) returns (notifications: seq<Notification>)
      ensures IsRelay(notifications, bidders - {bidder}, bidder.name, bidAmount)
      ensures bidder !in Recipients(notifications)
    {
      notifications := [];
      var pending := bidders;
      while pending != {}
        invariant pending <= bidders
        invariant Recipients(notifications) + multiset(pending - {bidder}) == multiset(bidders - {bidder})
        invariant forall i | 0 <= i < |notifications| ::
                    notifications[i].bidderName == bidder.name && notifications[i].bidAmount == bidAmount
        decreases pending
      {
        var notifyBidder :| notifyBidder in pending;
        RelayStep(notifications, pending, notifyBidder, bidder, bidAmount);
        if notifyBidder != bidder {
          notifications := notifications + [Notification(notifyBidder, bidder.name, bidAmount)];
        }
        pending := pending - {notifyBidder};
      }
    }
  }

  /** The demonstration: three bidders register, then each bids once; every bid reaches
      exactly the two other bidders, and bidding does not change who is registered. */
  method Demo() returns (counts: seq<nat>, registered: nat)
    ensures counts == [2, 2, 2] && registered == 3
  {
    var auctionMediator := new AuctionMediator();
    var bidder1 := new Bidder("samyak", auctionMediator);
    var bidder2 := new Bidder("shreya", auctionMediator);
    var bidder3 := new Bidder("aishik", auctionMediator);
    var n1 := bidder1.PlaceBid(100);
    var n2 := bidder2.PlaceBid(200);
    var n3 := bidder3.PlaceBid(300);
    counts := [|n1|, |n2|, |n3|];
    registered := |auctionMediator.bidders|;
  }
}
