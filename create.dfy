/**
 * The create-listing page (`src/Pages/Create.tsx`): a form of name,
 * description and image URL that posts a new container owned by the
 * logged-in user.
 */
module Create {
  import opened Options
  import opened Text
  import opened Numbers
  import opened Api
  import opened Session

  const NameRequired := "Name ist erforderlich"
  const FailurePrefix := "Create failed ("

  /**
   * The body of `POST /containers`: trimmed name and description, the
   * trimmed image URL or null when that is empty, the owner's id, no bid.
   */
  function BuildPayload(name: string, description: string, imageURL: string, owner: int): (p: CreatePayload)
    ensures p.owner == owner && p.currentBid.None?
    ensures p.name == Trim(name) && p.description == Trim(description)
    ensures p.imageURL.None? <==> AllWhitespace(imageURL)
    ensures p.imageURL.GetOr("") == Trim(imageURL)
  {
    var url := Trim(imageURL);
    CreatePayload(Trim(name), Trim(description), if url == [] then None else Some(url), owner, None)
  }

  /** Building a payload from a payload's own fields gives it back: trimming and `|| null` are idempotent. */
  lemma BuildPayloadStable(name: string, description: string, imageURL: string, owner: int)
    ensures var p := BuildPayload(name, description, imageURL, owner);
      BuildPayload(p.name, p.description, p.imageURL.GetOr(""), p.owner) == p
  {
  }

  /** The error for a response that is not ok: its text, or `Create failed (<status>)` when that is empty. */
  function FailureMessage(status: nat, text: string): (m: string)
    ensures m != []
    ensures text != [] ==> m == text
  {
    if text != [] then text else FailurePrefix + NatToString(status) + ")"
  }

  /** Without response text the message names the status, which can be read back from it. */
  lemma FailureMessageNamesStatus(status: nat)
    ensures var m := FailureMessage(status, "");
      |FailurePrefix| < |m| && m[..|FailurePrefix|] == FailurePrefix && m[|m| - 1] == ')'
      && AllDigits(m[|FailurePrefix|..|m| - 1]) && DigitsValue(m[|FailurePrefix|..|m| - 1]) == status
  {
    var m := FailureMessage(status, "");
    var digits := NatToString(status);
    assert m == FailurePrefix + digits + ")";
    assert m[|FailurePrefix|..|m| - 1] == digits;
    NatToStringRoundTrip(status);
  }

  class CreatePage {
    const user: Option<User>
    var name: string
    var description: string
    var imageURL: string
    var loading: bool
    var error: Option<string>
    ghost var requests: seq<Request>

    /** The page as mounted, with the user read from the session store. */
    constructor(store: Storage)
      ensures user == store.GetItem(UserKey)
      ensures name == "" && description == "" && imageURL == "" && !loading && error.None? && requests == []
    {
      user := store.GetItem(UserKey);
      name, description, imageURL := "", "", "";
      loading, error := false, None;
      requests := [];
    }

    /**
     * `onCreate`, enabled only while not loading: without a user, go to the
     * login page; with a blank name, show the name error; otherwise post the
     * payload, go back on success and show the failure otherwise. The form
     * fields are never changed.
     */
    method OnCreate(res: Response<Container>) returns (nav: Nav)
      requires !loading
      modifies this`loading, this`error, this`requests
      ensures !loading
      ensures user.None? ==> nav == GoTo("/login") && error == old(error) && requests == old(requests)
      ensures user.Some? && Trim(name) == [] ==>
        nav == Stay && error == Some(NameRequired) && requests == old(requests)
      ensures user.Some? && Trim(name) != [] ==>
        requests == old(requests) + [CreateContainer(BuildPayload(name, description, imageURL, user.value.id))]
      ensures user.Some? && Trim(name) != [] && res.Ok? ==> nav == Back && error.None?
      ensures user.Some? && Trim(name) != [] && res.NotOk? ==>
        nav == Stay && error == Some(FailureMessage(res.status, res.text))
      ensures user.Some? && Trim(name) != [] && res.Thrown? ==> nav == Stay && error == Some(res.message)
    {
      if user.None? {
        return GoTo("/login");
      }
      if Trim(name) == [] {
        error := Some(NameRequired);
        return Stay;
      }
      nav := Send(BuildPayload(name, description, imageURL, user.value.id), res);
    }

    /**
     * The request part of `onCreate`: `POST /containers` with `payload`
     * while loading, then back on success or the failure message.
     */
    method Send(payload: CreatePayload, res: Response<Container>) returns (nav: Nav)
      requires !loading
      modifies this`loading, this`error, this`requests
      ensures !loading
      ensures requests == old(requests) + [CreateContainer(payload)]
      ensures res.Ok? ==> nav == Back && error.None?
      ensures res.NotOk? ==> nav == Stay && error == Some(FailureMessage(res.status, res.text))
      ensures res.Thrown? ==> nav == Stay && error == Some(res.message)
    {
      loading := true;
      error := None;
      requests := requests + [CreateContainer(payload)];
      match res {
        case Ok(_) =>
          nav := Back;
        case NotOk(status, text) =>
          error := Some(FailureMessage(status, text));
          nav := Stay;
        case Thrown(message) =>
          error := Some(message);
          nav := Stay;
      }
      loading := false;
    }
  }
}
