/** The admin route guard (src/Components/ProtectedRoute.jsx): render the
    protected page only for a stored token that decodes and has not
    expired; otherwise send the browser to the login page, forgetting a
    token that is malformed or expired. */
module ProtectedRoute {

  import opened Wrappers

  /** What the JWT decoder makes of the stored token: its `exp` claim in
      seconds (None when absent), or a failure to decode. */
  datatype DecodeResult = Decoded(exp: Option<int>) | Malformed

  datatype Outcome = RedirectToLogin | RenderChildren

  /** `localStorage.getItem("token")` is truthy. */
  predicate HasToken(token: Option<string>) {
    token.Some? && token.value != ""
  }

  /** `decoded.exp < Date.now() / 1000`, with the clock in milliseconds: an
      absent `exp` compares false, so such a token never expires. */
  predicate Expired(d: DecodeResult, nowMillis: int)
    requires d.Decoded?
    ensures Expired(d, nowMillis) <==>
              d.exp.Some? && (d.exp.value < nowMillis / 1000 || (d.exp.value == nowMillis / 1000 && nowMillis % 1000 != 0))
  {
    d.exp.Some? && d.exp.value * 1000 < nowMillis
  }

  /** The guard's decision. */
  function Decide(token: Option<string>, d: DecodeResult, nowMillis: int): (r: Outcome)
    ensures r == RenderChildren <==> HasToken(token) && d.Decoded? && (d.exp.None? || nowMillis <= d.exp.value * 1000)
  {
    if !HasToken(token) then RedirectToLogin
    else if d.Malformed? || Expired(d, nowMillis) then RedirectToLogin
    else RenderChildren
  }

  /** The stored token after the guard: removed exactly when there was one
      and it was malformed or expired. */
  function StoredAfter(token: Option<string>, d: DecodeResult, nowMillis: int): (r: Option<string>)
    ensures !HasToken(token) ==> r == token
    ensures HasToken(token) && (d.Malformed? || Expired(d, nowMillis)) ==> r == None
    ensures Decide(token, d, nowMillis) == RenderChildren ==> r == token
  {
    if HasToken(token) && (d.Malformed? || Expired(d, nowMillis)) then None else token
  }

  /** Once the guard has redirected, it redirects again on the next visit,
      whatever the decoder and the clock say then. */
  lemma RedirectSticks(token: Option<string>, d: DecodeResult, nowMillis: int, d2: DecodeResult, later: int)
    requires Decide(token, d, nowMillis) == RedirectToLogin
    ensures Decide(StoredAfter(token, d, nowMillis), d2, later) == RedirectToLogin
  {
  }

  /** The browser's storage, reduced to the token entry. */
  class TokenStore {
    var token: Option<string>

    constructor (initial: Option<string>)
      ensures token == initial
    {
      token := initial;
    }

    /** Runs the guard on the stored token; `decoded` is what the decoder
        makes of it and `nowMillis` is `Date.now()`. */
    method Guard(decoded: DecodeResult, nowMillis: int) returns (outcome: Outcome)
      modifies this
      ensures outcome == Decide(old(token), decoded, nowMillis)
      ensures token == StoredAfter(old(token), decoded, nowMillis)
    {
      if !HasToken(token) {
        return RedirectToLogin;
      }
      if decoded.Malformed? {
        token := None;
        return RedirectToLogin;
      }
      if Expired(decoded, nowMillis) {
        token := None;
        return RedirectToLogin;
      }
      return RenderChildren;
    }
  }
}
