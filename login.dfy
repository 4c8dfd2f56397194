/**
 * The login page (`src/Pages/LoginPage.tsx`): one form that either signs in
 * with email and password or registers with name, email and password, and
 * on success keeps the returned user in the session store. A request is
 * started by a submit and finished when its response arrives; while it is
 * in flight, further submits are ignored.
 */
module Login {
  import opened Options
  import opened Text
  import opened Api
  import opened Session

  const NameRequired := "Name is required"
  const LoginFailed := "Login failed"
  const RegisterFailed := "Register failed"

  /** Which submit button was pressed: "Sign in" or "Register". */
  datatype Mode = SignIn | Register

  /** The request a submit in `mode` sends, or none when registering without a name. */
  function RequestFor(mode: Mode, name: string, email: string, password: string): (r: Option<Request>)
    ensures mode == SignIn ==> r == Some(LoginRequest(email, password))
    ensures mode == Register ==> (r.None? <==> AllWhitespace(name))
    ensures r.Some? && mode == Register ==> r.value == RegisterRequest(name, email, password)
  {
    match mode
    case SignIn => Some(LoginRequest(email, password))
    case Register => if Trim(name) == [] then None else Some(RegisterRequest(name, email, password))
  }

  /** The error a response that is not ok turns into: the handler's own message, whatever the status. */
  function RejectedMessage(request: Request): (m: string)
    requires request.LoginRequest? || request.RegisterRequest?
    ensures request.LoginRequest? <==> m == LoginFailed
    ensures request.RegisterRequest? <==> m == RegisterFailed
  {
    if request.LoginRequest? then LoginFailed else RegisterFailed
  }

  class LoginPage {
    const store: Storage
    var name: string
    var email: string
    var password: string
    var loading: bool
    var error: Option<string>
    /** The request whose response is awaited, if any. */
    var inFlight: Option<Request>
    ghost var requests: seq<Request>

    /**
     * The page is loading exactly while a request is in flight; that request
     * is the last one sent, and every request sent is a sign-in or a
     * registration with a name that is not blank.
     */
    ghost predicate Valid()
      reads this
    {
      && (loading <==> inFlight.Some?)
      && (inFlight.Some? ==> requests != [] && requests[|requests| - 1] == inFlight.value)
      && forall i :: 0 <= i < |requests| ==>
           requests[i].LoginRequest? || (requests[i].RegisterRequest? && !AllWhitespace(requests[i].name))
    }

    /** The page as mounted, sharing the browser's session store. */
    constructor(store: Storage)
      ensures Valid()
      ensures this.store == store
      ensures name == "" && email == "" && password == "" && !loading && error.None? && inFlight.None?
      ensures requests == []
    {
      this.store := store;
      name, email, password := "", "", "";
      loading, error, inFlight := false, None, None;
      requests := [];
    }

    /** Typing into the name field (shown in register mode). */
    method SetName(text: string)
      requires Valid()
      modifies this`name
      ensures Valid() && name == text
    {
      name := text;
    }

    /** Typing into the email field. */
    method SetEmail(text: string)
      requires Valid()
      modifies this`email
      ensures Valid() && email == text
    {
      email := text;
    }

    /** Typing into the password field. */
    method SetPassword(text: string)
      requires Valid()
      modifies this`password
      ensures Valid() && password == text
    {
      password := text;
    }

    /**
     * `onSubmit` with the mode of the pressed button: ignored while loading;
     * otherwise the start of `handleLogin` or `handleRegister`. A
     * registration with a blank name only shows the name error and sends
     * nothing; every other submit clears the error and sends its request.
     */
    method OnSubmit(mode: Mode)
      requires Valid()
      modifies this`loading, this`error, this`inFlight, this`requests
      ensures Valid()
      ensures old(loading) ==> unchanged(this)
      ensures !old(loading) && RequestFor(mode, name, email, password).None? ==>
        !loading && error == Some(NameRequired) && requests == old(requests)
      ensures !old(loading) && RequestFor(mode, name, email, password).Some? ==>
        var r := RequestFor(mode, name, email, password).value;
        loading && error.None? && inFlight == Some(r) && requests == old(requests) + [r]
    {
      if loading {
        return;
      }
      var request := RequestFor(mode, name, email, password);
      loading := true;
      error := None;
      if request.None? {
        error := Some(NameRequired);
        loading := false;
        return;
      }
      inFlight := request;
      requests := requests + [request.value];
    }

    /**
     * The response to the request in flight arrives: an ok response stores
     * the returned user under "user" and goes back; a response that is not
     * ok shows "Login failed" or "Register failed" and an exception its
     * message, leaving the session store as it was. Loading ends either way.
     */
    method Complete(res: Response<User>) returns (nav: Nav)
      requires Valid() && loading
      modifies store, this`loading, this`inFlight, this`error
      ensures Valid() && !loading
      ensures requests == old(requests)
      ensures res.Ok? ==> nav == Back && store.entries == old(store.entries)[UserKey := res.body]
      ensures res.Ok? ==> error == old(error) && store.GetItem(UserKey) == Some(res.body)
      ensures res.NotOk? ==>
        nav == Stay && error == Some(RejectedMessage(old(inFlight).value)) && store.entries == old(store.entries)
      ensures res.Thrown? ==> nav == Stay && error == Some(res.message) && store.entries == old(store.entries)
    {
      var request := inFlight.value;
      match res {
        case Ok(user) =>
          SaveUser(user);
          nav := Back;
        case NotOk(_, _) =>
          error := Some(RejectedMessage(request));
          nav := Stay;
        case Thrown(message) =>
          error := Some(message);
          nav := Stay;
      }
      loading := false;
      inFlight := None;
    }

    /** `saveUser`: keep the user under "user". */
    method SaveUser(user: User)
      modifies store
      ensures store.entries == old(store.entries)[UserKey := user]
    {
      store.SetItem(UserKey, user);
    }

    /** "Ohne login fortfahren", enabled only while not loading: forget the stored user and go back. */
    method ContinueWithoutLogin() returns (nav: Nav)
      requires !loading
      modifies store
      ensures nav == Back
      ensures store.entries == old(store.entries) - {UserKey}
      ensures store.GetItem(UserKey).None?
    {
      store.RemoveItem(UserKey);
      nav := Back;
    }
  }
}
