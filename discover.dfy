/**
 * The Discover page (`src/Pages/Discover/Discover.tsx`): the list of all
 * containers, a search box whose text is debounced and then applied as a
 * case-insensitive substring filter, per-item favourites, and the cards'
 * image and bid fallbacks.
 */
module Discover {
  import opened Options
  import opened Text
  import opened Numbers
  import opened Api

  const CardPlaceholder := "https://via.placeholder.com/400x300.png?text=No+Image"

  /** The decoded body of `GET /containers`: an array of containers, or some other JSON value. */
  datatype ListBody = ContainerArray(items: seq<Container>) | NotAnArray

  /** `c.description ?? ""`. */
  function DescriptionText(c: Container): string {
    c.description.GetOr("")
  }

  /** The filter callback for an already lowered query `q`. */
  predicate Matches(c: Container, q: string)
    ensures Matches(c, q) <==>
      (exists k :: OccursAt(Lower(c.name), q, k)) || (exists k :: OccursAt(Lower(DescriptionText(c)), q, k))
  {
    IncludesIffOccurs(Lower(c.name), q);
    IncludesIffOccurs(Lower(DescriptionText(c)), q);
    Includes(Lower(c.name), q) || Includes(Lower(DescriptionText(c)), q)
  }

  /** `r` is `s` with some elements left out and the rest in their original order. */
  ghost predicate IsSubsequence<T>(r: seq<T>, s: seq<T>)
    decreases |s|
  {
    r == [] || (s != [] && ((r[0] == s[0] && IsSubsequence(r[1..], s[1..])) || IsSubsequence(r, s[1..])))
  }

  lemma {:induction false} SubsequenceReflexive<T>(s: seq<T>)
    ensures IsSubsequence(s, s)
    decreases |s|
  {
    if s != [] {
      SubsequenceReflexive(s[1..]);
    }
  }

  /** `items.filter(c => Matches(c, q))`: the matching items, each as often as in `items`, in order. */
  function KeepMatching(items: seq<Container>, q: string): (r: seq<Container>)
    ensures IsSubsequence(r, items)
    ensures forall c :: multiset(r)[c] == if Matches(c, q) then multiset(items)[c] else 0
  {
    if items == [] then []
    else
      var rest := KeepMatching(items[1..], q);
      assert items == [items[0]] + items[1..];
      if Matches(items[0], q) then [items[0]] + rest else rest
  }

  /**
   * The `filtered` memo: with an empty debounced query every item; otherwise
   * exactly the items whose lowered name or description includes the lowered
   * query, each as often as in `items`, in their original order.
   */
  function Filtered(items: seq<Container>, debouncedQuery: string): (r: seq<Container>)
    ensures debouncedQuery == [] ==> r == items
    ensures IsSubsequence(r, items)
    ensures forall c :: multiset(r)[c] == (if debouncedQuery == [] || Matches(c, Lower(debouncedQuery)) then multiset(items)[c] else 0)
  {
    if debouncedQuery == [] then
      SubsequenceReflexive(items);
      items
    else KeepMatching(items, Lower(debouncedQuery))
  }

  /** Filtering twice with the same query filters once. */
  lemma {:induction false} KeepMatchingIdempotent(items: seq<Container>, q: string)
    ensures KeepMatching(KeepMatching(items, q), q) == KeepMatching(items, q)
    decreases |items|
  {
    if items != [] {
      KeepMatchingIdempotent(items[1..], q);
      if Matches(items[0], q) {
        var r := KeepMatching(items, q);
        assert r[0] == items[0] && r[1..] == KeepMatching(items[1..], q);
      }
    }
  }

  lemma FilteredIdempotent(items: seq<Container>, debouncedQuery: string)
    ensures Filtered(Filtered(items, debouncedQuery), debouncedQuery) == Filtered(items, debouncedQuery)
  {
    if debouncedQuery != [] {
      KeepMatchingIdempotent(items, Lower(debouncedQuery));
    }
  }

  /** The query's letter case does not matter: queries that lower alike filter alike. */
  lemma FilteredIgnoresQueryCase(items: seq<Container>, q1: string, q2: string)
    requires Lower(q1) == Lower(q2)
    ensures Filtered(items, q1) == Filtered(items, q2)
  {
  }

  /** An item without a description can match a non-empty query only through its name. */
  lemma NoDescriptionMatchesByName(c: Container, q: string)
    requires c.description.None? && q != []
    ensures Matches(c, q) <==> Includes(Lower(c.name), q)
  {
  }

  predicate IsFavorite(favorites: map<int, bool>, id: int) {
    id in favorites && favorites[id]
  }

  /** `toggleFavorite(id)`: `{ ...prev, [id]: !prev[id] }`. */
  function ToggleFavorite(favorites: map<int, bool>, id: int): (r: map<int, bool>)
    ensures id in r && IsFavorite(r, id) == !IsFavorite(favorites, id)
    ensures forall k :: k != id ==> (k in r <==> k in favorites)
    ensures forall k :: k != id && k in favorites ==> r[k] == favorites[k]
  {
    favorites[id := !IsFavorite(favorites, id)]
  }

  /** Toggling the same item twice leaves every item's favourite status as it was. */
  lemma ToggleTwice(favorites: map<int, bool>, id: int, k: int)
    ensures IsFavorite(ToggleFavorite(ToggleFavorite(favorites, id), id), k) == IsFavorite(favorites, k)
  {
  }

  /**
   * `ContainerCard`'s image source: the container's image URL unless it is
   * missing or empty, and the placeholder once the image failed to load.
   */
  function CardImage(imageURL: Option<string>, loadFailed: bool): (src: string)
    ensures src != []
    ensures src == CardPlaceholder || (!loadFailed && imageURL == Some(src))
  {
    if loadFailed then CardPlaceholder else TextOr(imageURL, CardPlaceholder)
  }

  /**
   * `ContainerCard`'s bid value: the looked-up bid's value when the item
   * refers to a bid and the lookup succeeded; no value in every other case.
   */
  function CardBid(currentBid: Option<int>, lookup: Response<Bid>): (v: Option<real>)
    ensures v.Some? <==> IsRef(currentBid) && lookup.Ok?
    ensures v.Some? ==> v.value == lookup.body.value
  {
    if !IsRef(currentBid) then None
    else match lookup
      case Ok(bid) => Some(bid.value)
      case _ => None
  }

  /** The page's state. */
  class DiscoverPage {
    var query: string
    var debouncedQuery: string
    /** The one pending debounce timer, holding the query it will apply, or none. */
    var pendingTimer: Option<string>
    var items: seq<Container>
    var loading: bool
    var error: Option<string>
    var favorites: map<int, bool>
    ghost var requests: seq<Request>

    /** The only timer that can still fire carries the latest query. */
    ghost predicate Valid()
      reads this
    {
      pendingTimer.Some? ==> pendingTimer.value == query
    }

    /** The page as mounted: empty query, loading, and the debounce effect's first timer scheduled. */
    constructor()
      ensures Valid()
      ensures query == "" && debouncedQuery == "" && pendingTimer == Some("")
      ensures items == [] && loading && error.None? && favorites == map[] && requests == []
    {
      query, debouncedQuery, pendingTimer := "", "", Some("");
      items, loading, error, favorites := [], true, None, map[];
      requests := [];
    }

    /**
     * The search box changes to `q`. When the text differs, the debounce
     * effect clears the pending timer and schedules one carrying `q`;
     * React does not rerun the effect for an unchanged text.
     */
    method SetQuery(q: string)
      requires Valid()
      modifies this`query, this`pendingTimer
      ensures Valid()
      ensures query == q
      ensures q != old(query) ==> pendingTimer == Some(q)
      ensures q == old(query) ==> pendingTimer == old(pendingTimer)
    {
      if q != query {
        query := q;
        pendingTimer := Some(q);
      }
    }

    /** The pending timer runs out: the debounced query becomes the trimmed latest query. */
    method TimerFires()
      requires Valid()
      modifies this`debouncedQuery, this`pendingTimer
      ensures Valid() && pendingTimer.None?
      ensures old(pendingTimer).Some? ==> debouncedQuery == Trim(query)
      ensures old(pendingTimer).None? ==> debouncedQuery == old(debouncedQuery)
    {
      if pendingTimer.Some? {
        debouncedQuery := Trim(pendingTimer.value);
        pendingTimer := None;
      }
    }

    /** The effect's cleanup on unmount clears the pending timer, so nothing fires. */
    method Unmount()
      requires Valid()
      modifies this`pendingTimer
      ensures Valid() && pendingTimer.None?
    {
      pendingTimer := None;
    }

    /** The heart button of item `id`. */
    method ToggleFavoriteOf(id: int)
      modifies this`favorites
      ensures favorites == ToggleFavorite(old(favorites), id)
    {
      favorites := ToggleFavorite(favorites, id);
    }

    /**
     * `fetchContainers`, on mount and on Retry: `GET /containers`; the list on
     * success (empty when the body is not an array), an empty list and an
     * error message otherwise; never loading afterwards.
     */
    method FetchContainers(res: Response<ListBody>)
      modifies this`items, this`loading, this`error, this`requests
      ensures requests == old(requests) + [ListContainers]
      ensures !loading
      ensures res.Ok? ==> error.None? && items == (if res.body.ContainerArray? then res.body.items else [])
      ensures res.NotOk? ==> items == [] && error == Some("Fetch failed (" + NatToString(res.status) + ")")
      ensures res.Thrown? ==> items == [] && error == Some(res.message)
    {
      loading := true;
      error := None;
      requests := requests + [ListContainers];
      match res {
        case Ok(body) =>
          items := if body.ContainerArray? then body.items else [];
        case NotOk(status, _) =>
          items := [];
          error := Some("Fetch failed (" + NatToString(status) + ")");
        case Thrown(message) =>
          items := [];
          error := Some(message);
      }
      loading := false;
    }
  }
}
