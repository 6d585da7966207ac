/** The `authenticate` middleware: it reads the bearer token from the
    `Authorization` header, has it verified, looks the user up and either passes
    the request on with `req.user` set or answers with an error. The token
    verifier is a parameter of the model. */
module AuthMiddleware {
  import opened Common
  import opened Text
  import opened Store

  /** What `jwt.verify` does with a token: it decodes the user id, or throws an
      error with the given `name`. */
  datatype Verdict = Decoded(id: nat) | Rejected(errorName: string)

  /** The two ways the middleware ends: `next()` with `req.user`, or an answer. */
  datatype Outcome = Next(user: SessionUser) | Deny(failure: Failure)

  const NoToken := Failure(Unauthorized, "Authentication required. No token provided.")

  const Prefix := "Bearer "

  /** `authHeader.split(" ")[1]` for a header that starts with "Bearer ". */
  function BearerToken(header: string): (token: string)
    requires StartsWith(header, Prefix)
  {
    SplitAfterWord(header, "Bearer", ' ');
    Split(header, ' ')[1]
  }

  /** The token is the text after "Bearer " up to the next space: it never holds a
      space, and it is empty exactly when a space or nothing follows the prefix. */
  lemma BearerTokenIsNextField(header: string)
    requires StartsWith(header, Prefix)
    ensures BearerToken(header) == TakeUntil(header[|Prefix|..], ' ')
    ensures ' ' !in BearerToken(header)
    ensures BearerToken(header) == "" <==> |header| == |Prefix| || header[|Prefix|] == ' '
  {
    SplitAfterWord(header, "Bearer", ' ');
    SplitFields(header[|Prefix|..], ' ');
  }

  /** A header "Bearer " followed by a token without spaces yields that token. */
  lemma BearerTokenRoundTrip(token: string)
    requires ' ' !in token
    ensures StartsWith(Prefix + token, Prefix)
    ensures BearerToken(Prefix + token) == token
  {
    var header := Prefix + token;
    assert header[..|Prefix|] == Prefix;
    assert header[|Prefix|..] == token;
    BearerTokenIsNextField(header);
    TakeUntilWithout(token, ' ');
  }

  /** A string without the separator is taken whole. */
  lemma {:induction false} TakeUntilWithout(s: string, c: char)
    requires c !in s
    ensures TakeUntil(s, c) == s
    decreases |s|
  {
    if s != [] {
      assert c !in s[1..];
      TakeUntilWithout(s[1..], c);
    }
  }

  /** The answer to an error thrown while verifying: by its `name`. */
  function VerifyError(errorName: string): (f: Failure)
    ensures f.status == Unauthorized <==> errorName == "JsonWebTokenError" || errorName == "TokenExpiredError"
    ensures errorName == "JsonWebTokenError" ==> f.message == "Invalid token."
    ensures errorName == "TokenExpiredError" ==> f.message == "Token expired."
    ensures f.status != Unauthorized ==> f == Failure(Internal, "Internal server error.")
  {
    if errorName == "JsonWebTokenError" then Failure(Unauthorized, "Invalid token.")
    else if errorName == "TokenExpiredError" then Failure(Unauthorized, "Token expired.")
    else Failure(Internal, "Internal server error.")
  }

  /** The token the middleware goes on with: none for a missing header, for a
      header without the prefix and for an empty token. */
  function PresentedToken(header: Option<string>): (t: Option<string>)
    ensures t.None? <==> header.None? || !StartsWith(header.value, Prefix) || BearerToken(header.value) == ""
    ensures t.Some? ==> t.value == BearerToken(header.value) && t.value != "" && ' ' !in t.value
  {
    if header.None? || !StartsWith(header.value, Prefix) then None
    else
      BearerTokenIsNextField(header.value);
      var token := BearerToken(header.value);
      if token == "" then None else Some(token)
  }

  /** `authenticate` on the header (`None` when absent), the verifier and the user table. */
  function Authenticate(header: Option<string>, verify: string -> Verdict, users: map<nat, User>): (o: Outcome)
    // Without a token the request is refused before the verifier is asked.
    ensures PresentedToken(header).None? ==> o == Deny(NoToken)
    // The request passes exactly when the token decodes to a known user, and then
    // carries that user's fields.
    ensures o.Next? <==>
      && PresentedToken(header).Some?
      && verify(PresentedToken(header).value).Decoded?
      && verify(PresentedToken(header).value).id in users
    ensures o.Next? ==>
      var id := verify(PresentedToken(header).value).id;
      o.user == SessionOf(id, users[id])
    // A decoded id of no user is refused as such.
    ensures PresentedToken(header).Some? && verify(PresentedToken(header).value).Decoded? ==>
      (verify(PresentedToken(header).value).id !in users <==>
       o == Deny(Failure(Unauthorized, "User not found or token is invalid.")))
    // A verifier error is answered by its name.
    ensures PresentedToken(header).Some? && verify(PresentedToken(header).value).Rejected? ==>
      o == Deny(VerifyError(verify(PresentedToken(header).value).errorName))
  {
    if header.None? || header.value == "" || !StartsWith(header.value, Prefix) then Deny(NoToken)
    else
      var token := BearerToken(header.value);
      if token == "" then Deny(NoToken)
      else
        match verify(token)
        case Rejected(name) => Deny(VerifyError(name))
        case Decoded(id) =>
          if id !in users then Deny(Failure(Unauthorized, "User not found or token is invalid."))
          else Next(SessionOf(id, users[id]))
  }

  /** "Bearer " alone, and "Bearer " followed by a second space, carry an empty token
      and are refused whatever the verifier says. */
  lemma EmptyTokensRefused(verify: string -> Verdict, users: map<nat, User>, rest: string)
    ensures Authenticate(Some(Prefix), verify, users) == Deny(NoToken)
    ensures Authenticate(Some(Prefix + " " + rest), verify, users) == Deny(NoToken)
  {
    assert StartsWith(Prefix, Prefix);
    BearerTokenIsNextField(Prefix);
    var doubled := Prefix + " " + rest;
    assert doubled[..|Prefix|] == Prefix;
    BearerTokenIsNextField(doubled);
  }
}
