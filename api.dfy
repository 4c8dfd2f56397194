/**
 * What crosses the boundary to the REST server: the three resources, the
 * request bodies, the requests a page issues (one constructor per endpoint)
 * and the response a page receives back, plus where a page navigates to.
 */
module Api {
  import opened Options

  datatype Container = Container(
    id: int,
    name: string,
    description: Option<string>,
    imageURL: Option<string>,
    owner: int,
    currentBid: Option<int>)

  datatype Bid = Bid(id: int, containerId: int, userId: int, value: real)

  datatype User = User(id: int, name: string, email: string)

  /** Body of `POST /containers`. */
  datatype CreatePayload = CreatePayload(
    name: string,
    description: string,
    imageURL: Option<string>,
    owner: int,
    currentBid: Option<int>)

  /** One request sent to the server, by endpoint. */
  datatype Request =
    | ListContainers                                          // GET  /containers
    | GetContainer(id: string)                                // GET  /containers/{id}
    | GetBid(bidId: int)                                      // GET  /bids/{id}
    | CreateContainer(payload: CreatePayload)                 // POST /containers
    | PlaceBid(userId: int, containerId: int, money: real)    // POST /users/{userId}/bid
    | LoginRequest(email: string, password: string)           // POST /users/login
    | RegisterRequest(name: string, email: string, password: string) // POST /users/register

  /**
   * How a request ends: an ok response with its decoded body, a response
   * whose status is not ok (with its body text), or an exception (a network
   * failure, or a body that could not be decoded) with its message.
   */
  datatype Response<+T> = Ok(body: T) | NotOk(status: nat, text: string) | Thrown(message: string)

  /** Where a handler sends the browser: nowhere, one step back, to a path, or a full reload. */
  datatype Nav = Stay | Back | GoTo(path: string) | Reload

  /** JavaScript truthiness of an optional number id: present and not 0. */
  predicate IsRef(id: Option<int>) {
    id.Some? && id.value != 0
  }

  /** JavaScript truthiness of an optional string: present and not empty. */
  predicate IsText(s: Option<string>) {
    s.Some? && s.value != ""
  }

  /** The `a || fallback` idiom on an optional string. */
  function TextOr(s: Option<string>, fallback: string): string {
    if IsText(s) then s.value else fallback
  }
}
