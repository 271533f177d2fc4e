/**
  The request `postPayload` sends: a POST of a file's document to the target endpoint
  with a JSON content type and at most one authentication header.
 */
module Delivery {
  import opened Wrappers
  import opened JavaLang
  import opened JsonTree

  /** `TargetProperties.Auth`; every field may be `null`. */
  datatype Auth = Auth(authType: Option<string>, token: Option<string>, headerName: Option<string>, headerValue: Option<string>)

  /** A request header; `.header(name, value)` passes a `null` value through. */
  datatype Header = Header(name: string, value: Option<string>)

  /** The POST request of one tick. */
  datatype Request = Request(uri: string, headers: seq<Header>, body: Json)

  /** The defaults of `TargetProperties.Auth`: type "bearer", no token, header name "X-API-Key". */
  function DefaultAuth(): (a: Auth)
    ensures a.authType == Some("bearer") && a.token.None?
    ensures a.headerName == Some("X-API-Key") && a.headerValue.None?
  {
    Auth(Some("bearer"), None, Some("X-API-Key"), None)
  }

  /** `Optional.ofNullable(auth).map(Auth::getType).orElse("none")`. */
  function AuthType(auth: Option<Auth>): (t: string)
    ensures auth.Some? && auth.value.authType.Some? ==> t == auth.value.authType.value
    ensures auth.None? || auth.value.authType.None? ==> t == "none"
  {
    match auth
    case None => "none"
    case Some(a) => if a.authType.Some? then a.authType.value else "none"
  }

  /** The case-folded authentication type. */
  function Scheme(auth: Option<Auth>): string
  {
    Lower(AuthType(auth))
  }

  /** "none", the type of an absent auth object, is neither "bearer" nor "header", in any case. */
  lemma NoneIsNoScheme()
    ensures !EqualsIgnoreCase("bearer", "none") && !EqualsIgnoreCase("header", "none")
  {
    assert Lower("bearer")[0] == 'b' && Lower("header")[0] == 'h' && Lower("none")[0] == 'n';
  }

  /** The literal types are their own lower case. */
  lemma SchemeNames()
    ensures Lower("bearer") == "bearer" && Lower("header") == "header"
  {
  }

  /**
    The header `postPayload` adds beyond `Content-Type`: with a "bearer" type (in any case)
    and a token, `Authorization: Bearer <token>`; otherwise with a "header" type and a
    header name, that header with the configured value; otherwise none.
   */
  function AuthHeader(auth: Option<Auth>): (h: Option<Header>)
    ensures h.Some? ==> auth.Some?
    ensures h.Some? && EqualsIgnoreCase("bearer", AuthType(auth)) && auth.value.token.Some? ==>
              h.value == Header("Authorization", Some("Bearer " + auth.value.token.value))
    ensures h.Some? && !(EqualsIgnoreCase("bearer", AuthType(auth)) && auth.value.token.Some?) ==>
              EqualsIgnoreCase("header", AuthType(auth)) && auth.value.headerName.Some?
              && h.value == Header(auth.value.headerName.value, auth.value.headerValue)
    ensures h.None? ==>
              !(EqualsIgnoreCase("bearer", AuthType(auth)) && auth.Some? && auth.value.token.Some?)
              && !(EqualsIgnoreCase("header", AuthType(auth)) && auth.Some? && auth.value.headerName.Some?)
  {
    var t := AuthType(auth);
    NoneIsNoScheme();
    if EqualsIgnoreCase("bearer", t) && auth.value.token.Some? then
      Some(Header("Authorization", Some("Bearer " + auth.value.token.value)))
    else if EqualsIgnoreCase("header", t) && auth.value.headerName.Some? then
      Some(Header(auth.value.headerName.value, auth.value.headerValue))
    else
      None
  }

  /** The headers of the request: `Content-Type` first, then at most the one authentication header. */
  function RequestHeaders(auth: Option<Auth>): (hs: seq<Header>)
    ensures 1 <= |hs| <= 2
    ensures hs[0] == Header("Content-Type", Some("application/json"))
    ensures |hs| == 2 <==> AuthHeader(auth).Some?
    ensures |hs| == 2 ==> hs[1] == AuthHeader(auth).value
  {
    [Header("Content-Type", Some("application/json"))] + (if AuthHeader(auth).Some? then [AuthHeader(auth).value] else [])
  }

  /** The request that posts `body` to `endpoint`. */
  function PostRequest(endpoint: string, auth: Option<Auth>, body: Json): (r: Request)
    ensures r.uri == endpoint && r.body == body
    ensures 1 <= |r.headers| <= 2 && r.headers[0] == Header("Content-Type", Some("application/json"))
    ensures |r.headers| == 2 <==> AuthHeader(auth).Some?
    ensures |r.headers| == 2 ==> r.headers[1] == AuthHeader(auth).value
  {
    Request(endpoint, RequestHeaders(auth), body)
  }

  // ---------------------------------------------------------------------------
  // Lemmas
  // ---------------------------------------------------------------------------

  /** A bearer type, in any case, with a token sends `Authorization: Bearer <token>`. */
  lemma BearerAuthSendsToken(a: Auth)
    requires a.authType.Some? && Lower(a.authType.value) == "bearer" && a.token.Some?
    ensures AuthHeader(Some(a)) == Some(Header("Authorization", Some("Bearer " + a.token.value)))
  {
    SchemeNames();
  }

  /** A header type, in any case, with a header name sends that header with the configured value. */
  lemma CustomHeaderAuth(a: Auth)
    requires a.authType.Some? && Lower(a.authType.value) == "header" && a.headerName.Some?
    ensures AuthHeader(Some(a)) == Some(Header(a.headerName.value, a.headerValue))
  {
    SchemeNames();
    assert Lower("bearer") != Lower("header") by {
      assert Lower("bearer")[0] != Lower("header")[0];
    }
  }

  /** A bearer type without a token adds no header, even when a header name is configured. */
  lemma BearerWithoutTokenSendsNothing(a: Auth)
    requires a.authType.Some? && Lower(a.authType.value) == "bearer" && a.token.None?
    ensures AuthHeader(Some(a)) == None
  {
    SchemeNames();
    assert Lower("bearer") != Lower("header") by {
      assert Lower("bearer")[0] != Lower("header")[0];
    }
  }

  /** Any type other than "bearer" and "header" adds no header. */
  lemma OtherSchemesSendNothing(auth: Option<Auth>)
    requires Scheme(auth) != "bearer" && Scheme(auth) != "header"
    ensures AuthHeader(auth) == None
  {
    SchemeNames();
    NoneIsNoScheme();
  }

  /** A target without an auth object gets no auth header and sends `Content-Type` alone. */
  lemma MissingAuthSendsNothing()
    ensures AuthHeader(None) == None
    ensures RequestHeaders(None) == [Header("Content-Type", Some("application/json"))]
  {
    SchemeNames();
    NoneIsNoScheme();
  }

  /** The default auth settings, bearer without a token, send `Content-Type` alone. */
  lemma DefaultAuthSendsContentTypeOnly()
    ensures RequestHeaders(Some(DefaultAuth())) == [Header("Content-Type", Some("application/json"))]
  {
    var a := DefaultAuth();
    assert Lower(a.authType.value) == "bearer";
    BearerWithoutTokenSendsNothing(a);
  }
}
