/** The session held by `AuthProvider`: the raw token (mirrored in browser
    storage) and the decoded user. The JWT decoder is a parameter of the
    provider and the clock a parameter of each expiry check. */
module Auth {
  import opened Js

  /** The payload fields the views read from a decoded token. Either may be
      absent from a payload. */
  datatype Claims = Claims(exp: Option<int>, role: Option<string>)

  /** `user?.role === "seller"`. */
  predicate HasSellerRole(user: Option<Claims>)
  {
    user.Some? && user.value.role == Some("seller")
  }

  class AuthProvider {
    /** The "token" key of localStorage; None when the key is absent. */
    var storage: Option<string>
    /** The `token` state. */
    var token: string
    /** The `user` state: the decoded payload, or null. */
    var user: Option<Claims>
    /** `jwtDecode`: None where the decoder throws. */
    const decode: string -> Option<Claims>

    /** Mounting the provider: the token starts as the stored value or "",
        the user as null. */
    constructor (stored: Option<string>, decode: string -> Option<Claims>)
      ensures storage == stored && this.decode == decode
      ensures token == NullOr(stored, "")
      ensures user == None
    {
      this.storage := stored;
      this.decode := decode;
      this.token := NullOr(stored, "");
      this.user := None;
    }

    /** The effect run when `token` changes: a non-empty token is decoded into
        `user`. A decode failure is not caught there; `threw` reports it and
        the user is then left as it was. */
    method DecodeEffect() returns (threw: bool)
      modifies this`user
      ensures token == "" ==> !threw && user == old(user)
      ensures token != "" && decode(token).Some? ==> !threw && user == decode(token)
      ensures token != "" && decode(token).None? ==> threw && user == old(user)
    {
      threw := false;
      if token != "" {
        var decoded := decode(token);
        if decoded.None? {
          threw := true;
        } else {
          user := decoded;
        }
      }
    }

    /** `login(t)`: store the token and adopt it. The user is decoded later,
        by the effect. */
    method Login(t: string)
      modifies this`storage, this`token
      ensures storage == Some(t) && token == t
      ensures user == old(user)
    {
      storage := Some(t);
      token := t;
    }

    /** `logout()`: forget the token everywhere, clear the user and go to
        the login page. The new state does not depend on the old one. */
    method Logout() returns (navigateTo: string)
      modifies this`storage, this`token, this`user
      ensures storage == None && token == "" && user == None
      ensures navigateTo == "/login"
    {
      storage := None;
      token := "";
      user := None;
      navigateTo := "/login";
    }

    /** `isAuthenticated()` at time `now` (milliseconds): the token is
        non-empty, decodes, and its `exp` (seconds) lies after `now`. A decode
        failure reads as logged out. It reads the state and changes nothing. */
    function IsAuthenticated(now: int): (r: bool)
      reads this
      ensures r ==> token != "" && decode(token).Some?
      ensures decode(token).Some? && decode(token).value.exp.None? ==> !r
    {
      if token == "" then false
      else
        match decode(token)
        case None => false
        case Some(c) => c.exp.Some? && c.exp.value * 1000 > now
    }

    /** `isSeller()`: looks at the decoded user only, not at expiry. */
    function IsSeller(): (r: bool)
      reads this
      ensures r ==> user.Some? && user.value.role == Some("seller")
      ensures user.None? ==> !r
    {
      HasSellerRole(user)
    }
  }

  /** Once the effect has decoded the token into `user`, the two checks
      read the same payload: authenticated exactly when the user has an
      expiry later than now, whereas `isSeller` looks at its role alone. */
  lemma AuthenticatedReadsUser(p: AuthProvider, now: int)
    requires p.token != "" && p.user == p.decode(p.token)
    ensures p.IsAuthenticated(now) <==> p.user.Some? && p.user.value.exp.Some? && p.user.value.exp.value * 1000 > now
    ensures p.IsSeller() <==> p.user.Some? && p.user.value.role == Some("seller")
  {
  }

  /** The effect followed by the check: after a decode that does not throw,
      authentication is decided by the expiry of the adopted user. */
  method DecodeThenAuthenticate(p: AuthProvider, now: int) returns (threw: bool, authenticated: bool)
    modifies p
    ensures !threw && p.token != "" ==> p.user == p.decode(p.token)
    ensures !threw && p.token != "" ==>
      (authenticated <==> p.user.Some? && p.user.value.exp.Some? && p.user.value.exp.value * 1000 > now)
    ensures authenticated == p.IsAuthenticated(now)
  {
    threw := p.DecodeEffect();
    authenticated := p.IsAuthenticated(now);
    if !threw && p.token != "" {
      AuthenticatedReadsUser(p, now);
    }
  }

  /** An empty token, or one the decoder rejects, is never authenticated. */
  lemma UndecodableIsLoggedOut(p: AuthProvider, now: int)
    requires p.token == "" || p.decode(p.token).None?
    ensures !p.IsAuthenticated(now)
  {
  }

  /** Expiry is observed lazily: with the state untouched, a session that is
      authenticated now was authenticated at every earlier time, and stops
      being authenticated once the clock reaches exp * 1000. */
  lemma ExpiryIsLazy(p: AuthProvider, earlier: int, later: int)
    requires earlier <= later
    ensures p.IsAuthenticated(later) ==> p.IsAuthenticated(earlier)
    ensures (p.token != "" && p.decode(p.token).Some? && p.decode(p.token).value.exp.Some? &&
             later >= p.decode(p.token).value.exp.value * 1000) ==> !p.IsAuthenticated(later)
  {
  }

  /** A token whose `exp` lies one second in the past is not authenticated. */
  lemma ExpiredOneSecondAgo(p: AuthProvider, nowSeconds: int)
    requires p.token != "" && p.decode(p.token) == Some(Claims(Some(nowSeconds - 1), Some("customer")))
    ensures !p.IsAuthenticated(nowSeconds * 1000)
  {
  }

  /** `isSeller` ignores expiry: an expired seller token still reports a
      seller once it has been decoded into the user. */
  lemma SellerIgnoresExpiry(p: AuthProvider, now: int)
    requires p.user == Some(Claims(Some(0), Some("seller"))) && now > 0
    requires p.decode(p.token) == p.user
    ensures p.IsSeller() && !p.IsAuthenticated(now)
  {
  }

  /** Logging out twice leaves the same state as logging out once. */
  method LogoutTwice(p: AuthProvider)
    modifies p
    ensures p.storage == None && p.token == "" && p.user == None
  {
    var first := p.Logout();
    ghost var afterOnce := (p.storage, p.token, p.user);
    var second := p.Logout();
    assert (p.storage, p.token, p.user) == afterOnce;
    assert first == second;
  }

  /** Logging in and letting the effect run adopts the decoded payload as the
      user; an empty token is adopted but never decoded. */
  method LoginThenDecode(p: AuthProvider, t: string) returns (threw: bool)
    modifies p
    ensures p.storage == Some(t) && p.token == t
    ensures t != "" && p.decode(t).Some? ==> !threw && p.user == p.decode(t)
    ensures t != "" && p.decode(t).None? ==> threw && p.user == old(p.user)
  {
    p.Login(t);
    threw := p.DecodeEffect();
  }
}
