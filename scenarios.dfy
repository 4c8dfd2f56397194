/**
 * Whole user journeys across the pages, each with one browser's session
 * store shared by every page it opens, and with the server's answers fixed
 * in advance.
 */
module Scenarios {
  import opened Options
  import opened Text
  import opened Numbers
  import opened Api
  import opened Session
  import Discover
  import ContainerDetails
  import Create
  import Login
  import Header

  const Ann := User(1, "Ann", "ann@example.com")
  /** Container 7 whose current bid is bid 3. */
  const Chair := Container(7, "Chair", Some("Oak"), None, 1, Some(3))
  /** A listing without a description or a bid. */
  const Lamp := Container(8, "Lamp", None, None, 1, None)

  /**
   * A container whose current bid is worth 50: entering "40" is rejected
   * with a message naming 50 and sends nothing; entering "60" posts a bid of
   * 60 for the container on the user's behalf.
   */
  method BidAgainstFifty() returns (lowError: Option<ContainerDetails.BidError>, ghost sent: seq<Request>)
    ensures lowError == Some(ContainerDetails.NotAboveCurrent(50.0))
    ensures sent == [GetContainer("7"), GetBid(3), PlaceBid(Ann.id, Chair.id, 60.0)]
  {
    var page := OpenBidInput();
    lowError := EnterBid(page, "40", 40);
    var _ := EnterBid(page, "60", 60);
    sent := page.requests;
  }

  /** Ann's details page for container 7 with the bid input shown and a current bid of 50. */
  ghost predicate BidInputOpen(page: ContainerDetails.DetailsPage)
    reads page
  {
    page.Valid() && page.ShowsBidButton() && page.showBidInput
    && page.user == Some(Ann) && page.container == Some(Chair) && page.currentBidValue == 50.0
  }

  /** Ann opens container 7, whose bid 3 is worth 50, and clicks the bid button once. */
  method OpenBidInput() returns (page: ContainerDetails.DetailsPage)
    ensures fresh(page) && BidInputOpen(page)
    ensures page.requests == [GetContainer("7"), GetBid(3)]
  {
    var store := new Storage();
    store.SetItem(UserKey, Ann);
    page := new ContainerDetails.DetailsPage("7", store);
    page.Load(Ok(Chair), Ok(Bid(3, 7, 2, 50.0)));
    var nav := page.HandleBidClick(Ok(()));
  }

  /**
   * Ann types the whole number `n` and clicks: at most 50 is rejected naming
   * 50 and sends nothing; above 50 posts it, and the server accepts it.
   */
  method EnterBid(page: ContainerDetails.DetailsPage, text: string, n: nat) returns (error: Option<ContainerDetails.BidError>)
    requires BidInputOpen(page) && NatToString(n) == text && n > 0
    modifies page
    ensures n <= 50 ==> BidInputOpen(page) && page.requests == old(page.requests)
    ensures n <= 50 ==> error == Some(ContainerDetails.NotAboveCurrent(50.0))
    ensures n > 50 ==> page.requests == old(page.requests) + [PlaceBid(Ann.id, Chair.id, n as real)]
  {
    page.SetBidInput(text);
    NatToStringParses(n);
    var nav := page.HandleBidClick(Ok(()));
    error := page.bidError;
  }

  /**
   * After logging out in the top bar, a page mounted afterwards sees no
   * user: creating a listing and bidding both go to the login page, and
   * neither sends a request of its own.
   */
  method LogoutThenAct(store: Storage) returns (createNav: Nav, bidNav: Nav, ghost sent: seq<Request>)
    modifies store
    ensures createNav == GoTo("/login") && bidNav == GoTo("/login")
    ensures sent == [GetContainer("7"), GetBid(3)]
  {
    var bar := new Header.TopBar(store, "/discover");
    var nav := bar.HandleLogout();
    var create := new Create.CreatePage(store);
    create.name := "Chair";
    createNav := create.OnCreate(Ok(Chair));
    var details := new ContainerDetails.DetailsPage("7", store);
    details.Load(Ok(Chair), Ok(Bid(3, 7, 2, 50.0)));
    bidNav := details.HandleBidClick(Ok(()));
    sent := create.requests + details.requests;
  }

  /**
   * Signing in stores the returned user; once the browser has gone back to
   * another path, the top bar shows that user and offers Create and Log out.
   */
  method SignInThenHeader(store: Storage) returns (menu: seq<Header.MenuEntry>)
    modifies store
    ensures Header.CreateLink in menu && Header.LogoutButton in menu && Header.UserName("Ann") in menu
  {
    var bar := new Header.TopBar(store, "/login");
    var page := new Login.LoginPage(store);
    page.SetEmail(Ann.email);
    page.SetPassword("secret");
    page.OnSubmit(Login.SignIn);
    var nav := page.Complete(Ok(Ann));
    bar.Navigate("/discover");
    menu := Header.MenuFor(bar.user);
  }

  /**
   * Registering with a blank name is refused before any request; a second
   * submit with a name sends the registration with the name as typed.
   */
  method RegisterNeedsName(store: Storage) returns (firstError: Option<string>, ghost sent: seq<Request>)
    ensures firstError == Some(Login.NameRequired)
    ensures sent == [RegisterRequest(" Bo ", "bo@example.com", "pw")]
  {
    var page := new Login.LoginPage(store);
    page.SetName("  ");
    page.SetEmail("bo@example.com");
    page.SetPassword("pw");
    page.OnSubmit(Login.Register);
    firstError := page.error;
    page.SetName(" Bo ");
    page.OnSubmit(Login.Register);
    sent := page.requests;
  }

  /**
   * Typing "lamp" and then "Chair " within the debounce window applies the
   * filter with the trimmed final text only: the chair is shown and the
   * lamp, which the first text alone would have kept (`StaleQueryKeepsLamp`),
   * is not.
   */
  method DebouncedSearch() returns (applied: string, shown: seq<Container>)
    ensures applied == "Chair"
    ensures shown == [Chair]
  {
    var page := TypeTwice();
    applied := page.debouncedQuery;
    assert Lower("Chair") == "chair";
    assert Discover.Matches(Chair, "chair") by {
      assert Lower(Chair.name) == "chair";
      assert StartsWith("chair", "chair");
    }
    assert !Discover.Matches(Lamp, "chair") by {
      assert Lower(Lamp.name) == "lamp";
      IncludesIffOccurs("lamp", "chair");
      IncludesInEmpty("chair");
    }
    shown := Discover.Filtered(page.items, applied);
  }

  /** The page lists the chair and the lamp; "lamp" then "Chair " are typed before the timers fire. */
  method TypeTwice() returns (page: Discover.DiscoverPage)
    ensures page.items == [Chair, Lamp]
    ensures page.debouncedQuery == "Chair"
  {
    page := new Discover.DiscoverPage();
    page.FetchContainers(Ok(Discover.ContainerArray([Chair, Lamp])));
    page.SetQuery("lamp");
    page.SetQuery("Chair ");
    page.TimerFires();
    page.TimerFires();
    assert TrimStart("Chair ") == "Chair ";
    assert TrimEnd("Chair ") == TrimEnd("Chair");
  }

  /** The first text of `DebouncedSearch`, had it been applied, would have kept the lamp. */
  lemma StaleQueryKeepsLamp()
    ensures Lamp in Discover.Filtered([Chair, Lamp], "lamp")
  {
    assert Lower("lamp") == "lamp";
    assert Discover.Matches(Lamp, "lamp") by {
      assert Lower(Lamp.name) == "lamp";
      assert StartsWith("lamp", "lamp");
    }
  }

  /**
   * A listing created without an image is posted with a null image URL;
   * the details page for it shows the placeholder at render time.
   */
  method CreateWithoutImage(store: Storage) returns (ghost posted: CreatePayload, image: string)
    modifies store
    ensures posted == CreatePayload("Chair", "Oak", None, Ann.id, None)
    ensures image == ContainerDetails.DetailPlaceholder
  {
    store.SetItem(UserKey, Ann);
    var create := new Create.CreatePage(store);
    create.name, create.description := "Chair", "Oak";
    TrimOfTrimmed("Chair");
    TrimOfTrimmed("Oak");
    var nav := create.OnCreate(Ok(Container(9, "Chair", Some("Oak"), None, Ann.id, None)));
    posted := create.requests[0].payload;
    var details := new ContainerDetails.DetailsPage("9", store);
    details.Load(Ok(Container(9, "Chair", Some("Oak"), None, Ann.id, None)), Thrown("unused"));
    image := details.imgSrc;
  }

  /** A container that cannot be fetched leaves the details page with its error and without a bid button. */
  method DetailsNotFound(store: Storage) returns (error: Option<string>, bidButton: bool)
    ensures error == Some(ContainerDetails.ContainerNotFound) && !bidButton
  {
    var details := new ContainerDetails.DetailsPage("404", store);
    details.Load(NotOk(404, ""), Thrown("unused"));
    error := details.error;
    bidButton := details.ShowsBidButton();
  }
}
