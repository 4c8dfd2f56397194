/**
 * The container details page
 * (`src/Pages/ContainerDetails/ContainerDetailsPage.tsx`): loads one
 * container and, softly, its current bid; the bid button first reveals an
 * input, then validates the amount and posts the bid.
 */
module ContainerDetails {
  import opened Options
  import opened Numbers
  import opened Api
  import opened Session

  const DetailPlaceholder := "https://via.placeholder.com/900x500.png?text=No+Image"
  const ContainerNotFound := "Container not found"
  const BidRejected := "Bieten fehlgeschlagen"

  /** The messages under the bid input. */
  datatype BidError =
    | InvalidAmount                  // "Bitte gültigen Betrag eingeben"
    | NotAboveCurrent(current: real) // "Gebot muss größer als {current} CHF sein"
    | SubmitFailed(message: string)

  /** A parsed amount that may be posted: a number, positive, above the current bid. */
  predicate AcceptableBid(amount: Option<real>, current: real) {
    amount.Some? && amount.value > 0.0 && amount.value > current
  }

  class DetailsPage {
    const id: string
    var container: Option<Container>
    var currentBidValue: real
    const user: Option<User>
    var loading: bool
    var error: Option<string>
    var imgSrc: string
    var showBidInput: bool
    var bidInput: string
    var bidError: Option<BidError>
    var submitting: bool
    var reloaded: bool
    ghost var requests: seq<Request>

    /** Between events nothing is being submitted, and every posted bid was positive and the user's own. */
    ghost predicate Valid()
      reads this
    {
      && !submitting
      && forall i :: 0 <= i < |requests| && requests[i].PlaceBid? ==>
           user.Some? && requests[i].userId == user.value.id && requests[i].money > 0.0
    }

    /** The state in which the page renders the bid button (otherwise it shows a skeleton or only a back button). */
    predicate ShowsBidButton()
      reads this
      ensures ShowsBidButton() ==> !loading && container.Some? && !IsText(error)
      ensures loading || IsText(error) || container.None? ==> !ShowsBidButton()
    {
      !loading && !IsText(error) && container.Some?
    }

    /** The page as mounted for route parameter `id`, with the user read from the session store. */
    constructor(id: string, store: Storage)
      ensures Valid()
      ensures this.id == id && user == store.GetItem(UserKey)
      ensures container.None? && currentBidValue == 0.0 && loading && error.None? && imgSrc == DetailPlaceholder
      ensures !showBidInput && bidInput == "" && bidError.None? && !reloaded && requests == []
    {
      this.id := id;
      user := store.GetItem(UserKey);
      container, currentBidValue, loading, error, imgSrc := None, 0.0, true, None, DetailPlaceholder;
      showBidInput, bidInput, bidError, submitting, reloaded := false, "", None, false, false;
      requests := [];
    }

    /**
     * The load effect: `GET /containers/{id}`, then `GET /bids/{currentBid}`
     * when the container refers to a bid. A container failure is the page's
     * error; a bid response that is not ok keeps the current bid value; an
     * exception during the bid lookup is the page's error.
     */
    method Load(containerRes: Response<Container>, bidRes: Response<Bid>)
      requires Valid()
      modifies this`container, this`currentBidValue, this`loading, this`error, this`imgSrc, this`requests
      ensures Valid()
      ensures id == "" ==> unchanged(this)
      ensures id != "" ==> !loading
      ensures id != "" ==>
        requests == old(requests) + [GetContainer(id)]
          + (if containerRes.Ok? && IsRef(containerRes.body.currentBid)
             then [GetBid(containerRes.body.currentBid.value)] else [])
      ensures id != "" && containerRes.NotOk? ==>
        error == Some(ContainerNotFound) && container == old(container) && currentBidValue == old(currentBidValue)
        && imgSrc == old(imgSrc)
      ensures id != "" && containerRes.Thrown? ==>
        error == Some(containerRes.message) && container == old(container) && currentBidValue == old(currentBidValue)
        && imgSrc == old(imgSrc)
      ensures id != "" && containerRes.Ok? ==>
        container == Some(containerRes.body) && imgSrc == TextOr(containerRes.body.imageURL, DetailPlaceholder)
      ensures id != "" && containerRes.Ok? && (!IsRef(containerRes.body.currentBid) || bidRes.NotOk?) ==>
        error.None? && currentBidValue == old(currentBidValue)
      ensures id != "" && containerRes.Ok? && IsRef(containerRes.body.currentBid) && bidRes.Ok? ==>
        error.None? && currentBidValue == bidRes.body.value
      ensures id != "" && containerRes.Ok? && IsRef(containerRes.body.currentBid) && bidRes.Thrown? ==>
        error == Some(bidRes.message) && currentBidValue == old(currentBidValue)
    {
      if id == "" {
        return;
      }
      loading := true;
      error := None;
      requests := requests + [GetContainer(id)];
      match containerRes {
        case NotOk(_, _) =>
          error := Some(ContainerNotFound);
        case Thrown(message) =>
          error := Some(message);
        case Ok(c) =>
          container := Some(c);
          imgSrc := TextOr(c.imageURL, DetailPlaceholder);
          if IsRef(c.currentBid) {
            requests := requests + [GetBid(c.currentBid.value)];
            match bidRes {
              case Ok(bid) => currentBidValue := bid.value;
              case NotOk(_, _) =>
              case Thrown(message) => error := Some(message);
            }
          }
      }
      loading := false;
    }

    /** The image failed to load: show the placeholder. */
    method ImageFailed()
      modifies this`imgSrc
      ensures imgSrc == DetailPlaceholder
    {
      imgSrc := DetailPlaceholder;
    }

    /** Typing into the bid input. */
    method SetBidInput(text: string)
      requires showBidInput
      modifies this`bidInput
      ensures bidInput == text
    {
      bidInput := text;
    }

    /**
     * `handleBidClick`: without a user, go to the login page; on the first
     * click, only reveal an empty input; otherwise reject an amount that is
     * not a positive number, then one not above the current bid, and only
     * then post the bid: on success hide the input and reload, on failure
     * keep the input and show the error.
     */
    method HandleBidClick(res: Response<()>) returns (nav: Nav)
      requires Valid() && ShowsBidButton()
      modifies this`showBidInput, this`bidInput, this`bidError, this`submitting, this`reloaded, this`requests
      ensures Valid()
      ensures user.None? ==> nav == GoTo("/login") && unchanged(this)
      ensures user.Some? && !old(showBidInput) ==>
        nav == Stay && showBidInput && bidInput == "" && bidError.None? && requests == old(requests)
        && reloaded == old(reloaded)
      ensures user.Some? && old(showBidInput) && !(ParseNumber(old(bidInput)).Some? && ParseNumber(old(bidInput)).value > 0.0) ==>
        nav == Stay && bidError == Some(InvalidAmount) && showBidInput && bidInput == old(bidInput)
        && requests == old(requests) && reloaded == old(reloaded)
      ensures user.Some? && old(showBidInput) && ParseNumber(old(bidInput)).Some?
              && 0.0 < ParseNumber(old(bidInput)).value <= currentBidValue ==>
        nav == Stay && bidError == Some(NotAboveCurrent(currentBidValue)) && showBidInput && bidInput == old(bidInput)
        && requests == old(requests) && reloaded == old(reloaded)
      ensures requests != old(requests) <==>
        user.Some? && old(showBidInput) && AcceptableBid(ParseNumber(old(bidInput)), currentBidValue)
      ensures requests != old(requests) ==>
        requests == old(requests) + [PlaceBid(user.value.id, container.value.id, ParseNumber(old(bidInput)).value)]
      ensures requests != old(requests) && res.Ok? ==>
        nav == Reload && reloaded && !showBidInput && bidInput == "" && bidError.None?
      ensures requests != old(requests) && res.NotOk? ==>
        nav == Stay && showBidInput && bidInput == old(bidInput) && bidError == Some(SubmitFailed(BidRejected))
        && reloaded == old(reloaded)
      ensures requests != old(requests) && res.Thrown? ==>
        nav == Stay && showBidInput && bidInput == old(bidInput) && bidError == Some(SubmitFailed(res.message))
        && reloaded == old(reloaded)
    {
      if user.None? {
        return GoTo("/login");
      }
      if !showBidInput {
        showBidInput := true;
        bidInput := "";
        bidError := None;
        return Stay;
      }
      var value := ParseNumber(bidInput);
      if value.None? || value.value <= 0.0 {
        bidError := Some(InvalidAmount);
        return Stay;
      }
      if value.value <= currentBidValue {
        bidError := Some(NotAboveCurrent(currentBidValue));
        return Stay;
      }
      nav := SubmitBid(value.value, res);
    }

    /**
     * The validated part of `handleBidClick`: `POST /users/{user.id}/bid`
     * with the container's id and the amount, then the success or failure
     * transition; `submitting` is set for the request and cleared after it.
     */
    method SubmitBid(money: real, res: Response<()>) returns (nav: Nav)
      requires Valid() && ShowsBidButton() && user.Some? && showBidInput
      requires money > 0.0 && money > currentBidValue
      modifies this`showBidInput, this`bidInput, this`bidError, this`submitting, this`reloaded, this`requests
      ensures Valid()
      ensures requests == old(requests) + [PlaceBid(user.value.id, container.value.id, money)]
      ensures res.Ok? ==> nav == Reload && reloaded && !showBidInput && bidInput == "" && bidError.None?
      ensures res.NotOk? ==>
        nav == Stay && showBidInput && bidInput == old(bidInput) && bidError == Some(SubmitFailed(BidRejected))
        && reloaded == old(reloaded)
      ensures res.Thrown? ==>
        nav == Stay && showBidInput && bidInput == old(bidInput) && bidError == Some(SubmitFailed(res.message))
        && reloaded == old(reloaded)
    {
      submitting := true;
      bidError := None;
      requests := requests + [PlaceBid(user.value.id, container.value.id, money)];
      match res {
        case Ok(_) =>
          showBidInput := false;
          bidInput := "";
          reloaded := true;
          nav := Reload;
        case NotOk(_, _) =>
          bidError := Some(SubmitFailed(BidRejected));
          nav := Stay;
        case Thrown(message) =>
          bidError := Some(SubmitFailed(message));
          nav := Stay;
      }
      submitting := false;
    }
  }
}
