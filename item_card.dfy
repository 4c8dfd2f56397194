/**
 * The stand-alone item card (`src/Pages/Discover/Components/ItemCard.tsx`):
 * given a container id it loads the container and, when the container
 * refers to a current bid, that bid; either lookup failing fails the card.
 */
module ItemCard {
  import opened Options
  import opened Numbers
  import opened Api
  import Discover

  const ItemPlaceholder := "/placeholder.png"
  const ContainerNotFound := "Container not found"
  const BidNotFound := "Bid not found"

  /** `container.imageURL ?? "/placeholder.png"`: only a missing URL falls back. */
  function ItemImage(imageURL: Option<string>): (src: string)
    ensures imageURL.Some? ==> src == imageURL.value
    ensures imageURL.None? ==> src == ItemPlaceholder
  {
    imageURL.GetOr(ItemPlaceholder)
  }

  /**
   * The two card kinds fall back differently: `??` here keeps an empty URL,
   * while the Discover card's `||` replaces it; they agree on every other input.
   */
  lemma ImageFallbacksCompared(imageURL: Option<string>)
    ensures imageURL == Some("") ==>
      ItemImage(imageURL) == "" && Discover.CardImage(imageURL, false) == Discover.CardPlaceholder
    ensures IsText(imageURL) ==> ItemImage(imageURL) == Discover.CardImage(imageURL, false) == imageURL.value
    ensures imageURL.None? ==>
      ItemImage(imageURL) == ItemPlaceholder && Discover.CardImage(imageURL, false) == Discover.CardPlaceholder
  {
  }

  datatype BidLabel = Amount(value: real) | NoBidsYet

  /** What the card shows. */
  datatype CardView =
    | Skeleton
    | Failure(message: string)
    | NoItem
    | Item(container: Container, image: string, bid: BidLabel)

  class Card {
    const containerId: Option<int>
    var container: Option<Container>
    var bidValue: Option<real>
    var loading: bool
    var error: Option<string>
    ghost var requests: seq<Request>

    /** A failed card holds neither container nor bid, and a bid value belongs to a loaded container. */
    ghost predicate Valid()
      reads this
    {
      && (error.Some? ==> container.None? && bidValue.None?)
      && (bidValue.Some? ==> container.Some?)
    }

    constructor(containerId: Option<int>)
      ensures Valid()
      ensures this.containerId == containerId
      ensures container.None? && bidValue.None? && loading && error.None? && requests == []
    {
      this.containerId := containerId;
      container, bidValue, loading, error := None, None, true, None;
      requests := [];
    }

    /** The rendering decision: skeleton while loading, then the error, the empty state or the item. */
    function View(): (v: CardView)
      reads this
      ensures loading <==> v == Skeleton
      ensures !loading && IsText(error) ==> v == Failure(error.value)
      ensures v.Item? <==> !loading && !IsText(error) && container.Some?
      ensures !loading && !IsText(error) && container.None? ==> v == NoItem
      ensures v.Item? ==> v.container == container.value && v.image == ItemImage(container.value.imageURL)
      ensures v.Item? ==> v.bid == (if bidValue.Some? then Amount(bidValue.value) else NoBidsYet)
    {
      if loading then Skeleton
      else if IsText(error) then Failure(error.value)
      else if container.None? then NoItem
      else Item(container.value, ItemImage(container.value.imageURL),
                if bidValue.Some? then Amount(bidValue.value) else NoBidsYet)
    }

    /**
     * The load effect. Without an id: the empty state and no request.
     * Otherwise `GET /containers/{id}`, then `GET /bids/{currentBid}` when the
     * container refers to a bid; a failure of either request clears the
     * container and the bid and records the error.
     */
    method Load(containerRes: Response<Container>, bidRes: Response<Bid>)
      requires Valid()
      modifies this`container, this`bidValue, this`loading, this`error, this`requests
      ensures Valid() && !loading
      ensures !IsRef(containerId) ==>
        container.None? && bidValue.None? && error.None? && requests == old(requests) && View() == NoItem
      ensures IsRef(containerId) ==>
        requests == old(requests) + [GetContainer(IntToString(containerId.value))]
          + (if containerRes.Ok? && IsRef(containerRes.body.currentBid)
             then [GetBid(containerRes.body.currentBid.value)] else [])
      ensures IsRef(containerId) && containerRes.NotOk? ==> container.None? && error == Some(ContainerNotFound)
      ensures IsRef(containerId) && containerRes.Thrown? ==> container.None? && error == Some(containerRes.message)
      ensures IsRef(containerId) && containerRes.Ok? && !IsRef(containerRes.body.currentBid) ==>
        container == Some(containerRes.body) && bidValue.None? && error.None?
      ensures IsRef(containerId) && containerRes.Ok? && IsRef(containerRes.body.currentBid) ==>
        && (bidRes.Ok? ==> container == Some(containerRes.body) && bidValue == Some(bidRes.body.value) && error.None?)
        && (bidRes.NotOk? ==> container.None? && bidValue.None? && error == Some(BidNotFound))
        && (bidRes.Thrown? ==> container.None? && bidValue.None? && error == Some(bidRes.message))
    {
      if !IsRef(containerId) {
        container := None;
        bidValue := None;
        loading := false;
        error := None;
        return;
      }
      loading := true;
      error := None;
      bidValue := None;
      requests := requests + [GetContainer(IntToString(containerId.value))];
      var failure: Option<string> := None;
      match containerRes {
        case NotOk(_, _) =>
          failure := Some(ContainerNotFound);
        case Thrown(message) =>
          failure := Some(message);
        case Ok(c) =>
          container := Some(c);
          if IsRef(c.currentBid) {
            requests := requests + [GetBid(c.currentBid.value)];
            match bidRes {
              case Ok(bid) => bidValue := Some(bid.value);
              case NotOk(_, _) => failure := Some(BidNotFound);
              case Thrown(message) => failure := Some(message);
            }
          }
      }
      if failure.Some? {
        container := None;
        bidValue := None;
        error := failure;
      }
      loading := false;
    }
  }
}
