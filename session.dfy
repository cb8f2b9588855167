/**
 * The session guard: the check of the stored bearer token that the route
 * guard and every task view run on mount, the token store it reads and
 * clears, and the logout transition.
 */
module Session {
  import opened Wrappers
  import opened Api

  /** The claims the JWT decoder reads from a token. */
  datatype Claims = Claims(email: Option<string>, exp: Option<int>)

  /** The client-side JWT decoder, a foreign library: `None` when it throws. */
  type Decoder = string -> Option<Claims>

  /** The result of checking the stored token at time `now` (seconds).
      `Expired` keeps the claims: the views go on using the decoded user. */
  datatype Verdict = NoToken | Malformed | Expired(claims: Claims) | Valid(claims: Claims) {
    /** The decoded user stays set after the check (the views' `user`). */
    predicate HasUser() { Expired? || Valid? }
  }

  /** The expiry test of the source: strict `exp < now`; a token without an
      `exp` claim never expires. */
  predicate ExpiredAt(c: Claims, now: int) {
    c.exp.Some? && c.exp.value < now
  }

  /** A token is there when the storage holds a non-empty string: an
      empty string is falsy and reads as no token at all. */
  predicate Present(token: Option<string>) {
    token.Some? && token.value != ""
  }

  function Check(token: Option<string>, decode: Decoder, now: int): (v: Verdict)
    ensures v == NoToken <==> !Present(token)
    ensures v == Malformed <==> Present(token) && decode(token.value) == None
    ensures v.HasUser() ==> Present(token) && decode(token.value) == Some(v.claims)
    ensures v.Valid? <==> Present(token) && decode(token.value).Some? &&
                          (decode(token.value).value.exp == None || now <= decode(token.value).value.exp.value)
  {
    if !Present(token) then NoToken
    else
      match decode(token.value)
      case None => Malformed
      case Some(c) => if ExpiredAt(c, now) then Expired(c) else Valid(c)
  }

  /** The decoder throws on the stored token (outside any `catch` in the
      add and delete handlers, so the handler is abandoned). */
  predicate Rejects(token: Option<string>, decode: Decoder) {
    Present(token) && decode(token.value) == None
  }

  /** The email the views send with their requests: the claim of the
      decoded token, or "" when there is no token, no decodable token or no
      email claim (`user?.email || ''`). */
  function EmailOf(token: Option<string>, decode: Decoder): (e: string)
    ensures e != "" ==> Present(token) && decode(token.value).Some? && decode(token.value).value.email == Some(e)
    ensures Present(token) && decode(token.value).Some? && decode(token.value).value.email.GetOr("") != "" ==>
              e == decode(token.value).value.email.value
  {
    if Present(token) && decode(token.value).Some? then decode(token.value).value.email.GetOr("") else ""
  }

  /** Whether the check removes the stored token. */
  predicate Clears(v: Verdict) { v.Malformed? || v.Expired? }

  /** The toast the check shows when it does not pass. */
  function RejectText(v: Verdict): (t: string)
    requires !v.Valid?
    ensures t in {SignInText, TokenErrorText, ExpiredText}
    ensures t == SignInText <==> v.NoToken?
    ensures t == TokenErrorText <==> v.Malformed?
    ensures t == ExpiredText <==> v.Expired?
  {
    match v
    case NoToken => SignInText
    case Malformed => TokenErrorText
    case Expired(_) => ExpiredText
  }

  /** What the guard renders. */
  datatype Outcome = Render | Redirect(path: string)

  /** The route guard's decision: what it renders and what the stored token
      becomes. */
  datatype Decision = Decision(outcome: Outcome, token: Option<string>)

  function Guard(token: Option<string>, decode: Decoder, now: int): (d: Decision)
    // no token (or an empty one): redirect, storage untouched
    ensures !Present(token) ==> d == Decision(Redirect(LoginPath), token)
    // a token the decoder rejects is removed
    ensures Present(token) && decode(token.value) == None ==> d == Decision(Redirect(LoginPath), None)
    // a decodable token with exp < now is removed; exp == now still passes
    ensures Present(token) && decode(token.value).Some? && ExpiredAt(decode(token.value).value, now) ==>
              d == Decision(Redirect(LoginPath), None)
    // otherwise the children render and the storage is unchanged
    ensures Present(token) && decode(token.value).Some? && !ExpiredAt(decode(token.value).value, now) ==>
              d == Decision(Render, token)
  {
    var v := Check(token, decode, now);
    if v.Valid? then Decision(Render, token)
    else Decision(Redirect(LoginPath), if Clears(v) then None else token)
  }

  /** After the guard the stored token, if any, passes the check: running the
      guard a second time at the same moment renders exactly when the first
      did and changes nothing more. */
  lemma GuardIdempotent(token: Option<string>, decode: Decoder, now: int)
    ensures var d := Guard(token, decode, now);
            Guard(d.token, decode, now) == d
  {
  }

  /** Expiry only moves forward in time: a token the guard accepts at `now`
      it accepts at every earlier moment, and one it rejects it rejects at
      every later moment. */
  lemma GuardMonotoneInTime(token: Option<string>, decode: Decoder, earlier: int, later: int)
    requires earlier <= later
    ensures Guard(token, decode, later).outcome == Render ==> Guard(token, decode, earlier).outcome == Render
  {
  }

  /** The browser's `localStorage` entry under the key `token`. */
  class TokenStore {
    var token: Option<string>

    constructor (initial: Option<string>)
      ensures token == initial
    {
      token := initial;
    }

    /** The route guard: checks the stored token, removes it when it is
        malformed or expired, and renders the children or redirects. */
    method ProtectedRoute(decode: Decoder, now: int) returns (out: Outcome, fx: seq<Effect>)
      modifies this
      ensures Decision(out, token) == Guard(old(token), decode, now)
      ensures var v := Check(old(token), decode, now);
              fx == if v.Valid? then [] else [ErrorToast(RejectText(v))]
    {
      var v := Check(token, decode, now);
      if v.Valid? {
        out, fx := Render, [];
      } else {
        if Clears(v) {
          token := None;
        }
        out, fx := Redirect(LoginPath), [ErrorToast(RejectText(v))];
      }
    }

    /** Logout from the sidebar: the token is removed and the user sent to
        the login page. */
    method Logout() returns (fx: seq<Effect>)
      modifies this
      ensures token == None
      ensures fx == [ToLogin]
    {
      token := None;
      fx := [ToLogin];
    }
  }
}
