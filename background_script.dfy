/**
 * The packaged background script, public/background/index.js: message
 * dispatch, the cookie upload (which settles and caches the user id and the
 * cookie header) and the preload request.
 *
 * `chrome.storage.local.get`, `chrome.cookies.getAll` and the server's reply
 * to each POST are inputs: `Ok` with what they resolve to, or `Err` with the
 * message of what they reject with. The POST a handler sends is an output.
 */
module BackgroundScript {
  import opened Wrappers
  import opened Text
  import opened JsValues

  const Anonymous := "anonymous_user"
  const UploadCookiesUrl := "http://localhost:3000/upload-cookies"
  const PreloadUrl := "http://localhost:3000/preload"

  /** A POST that a handler sends: the url and the body before `JSON.stringify`. */
  datatype Post = Post(url: string, body: Json)

  /** A cookie of `chrome.cookies.getAll`, as far as the cookie header uses it. */
  datatype BrowserCookie = BrowserCookie(name: string, value: string)

  /**
   * `postJSON(url, data)` once `fetch` and `res.json()` have settled: the parsed
   * body whatever the HTTP status, or an unsuccessful result carrying the
   * error's message; it never throws.
   */
  function PostJson(reply: Result<Json>): (r: Json)
    ensures reply.Ok? ==> r == reply.value
    ensures reply.Err? ==> !Truthy(Get(r, "success")) && Get(r, "error") == Str(reply.message)
  {
    match reply
    case Ok(v) => v
    case Err(m) =>
      var fields := [("success", Bool(false)), ("error", Str(m))];
      assert fields[1..] == [("error", Str(m))];
      assert "success"[0] != "error"[0];
      assert Lookup(fields, "error") == Lookup(fields[1..], "error");
      Obj(fields)
  }

  function ErrorResponse(key: string, message: string): Json
  {
    Obj([(key, Bool(false)), ("error", Str(message))])
  }

  const UnknownType := ErrorResponse("ok", "Unknown message type")
  const NoVideoUrl := ErrorResponse("success", "No video URL provided")

  /** `` `${c.name}=${c.value}` `` for each cookie. */
  function CookiePairs(cookies: seq<BrowserCookie>): (r: seq<string>)
    ensures |r| == |cookies|
    ensures forall i :: 0 <= i < |cookies| ==> r[i] == cookies[i].name + "=" + cookies[i].value
  {
    seq(|cookies|, i requires 0 <= i < |cookies| => cookies[i].name + "=" + cookies[i].value)
  }

  /** The cookie text sent to the server: the pairs joined by `"; "`. */
  function CookieHeader(cookies: seq<BrowserCookie>): string
  {
    Join(CookiePairs(cookies), "; ")
  }

  /** No cookies give the empty header; one more cookie appends `"; name=value"`, so the pairs stay in cookie order. */
  lemma CookieHeaderAppend(cookies: seq<BrowserCookie>, c: BrowserCookie)
    ensures CookieHeader([]) == ""
    ensures CookieHeader([c]) == c.name + "=" + c.value
    ensures |cookies| > 0 ==> CookieHeader(cookies + [c]) == CookieHeader(cookies) + "; " + c.name + "=" + c.value
  {
    if |cookies| > 0 {
      assert CookiePairs(cookies + [c]) == CookiePairs(cookies) + CookiePairs([c]);
      JoinAppend(CookiePairs(cookies), CookiePairs([c]), "; ");
    }
  }

  /**
   * The user id the cookie upload settles on: the message's own if truthy,
   * else the stored one, else `"anonymous_user"`; `Err` when the storage read
   * that this needs fails.
   */
  function UploadUserId(msg: Json, stored: Result<Json>): (r: Result<Json>)
    ensures Truthy(Get(msg, "userId")) ==> r == Ok(Get(msg, "userId"))
    ensures !Truthy(Get(msg, "userId")) && stored.Err? ==> r == Err(stored.message)
    ensures !Truthy(Get(msg, "userId")) && stored.Ok? && Truthy(Get(stored.value, "userId")) ==> r == Ok(Get(stored.value, "userId"))
    ensures !Truthy(Get(msg, "userId")) && stored.Ok? && !Truthy(Get(stored.value, "userId")) ==> r == Ok(Str(Anonymous))
    ensures r.Ok? ==> Truthy(r.value)
  {
    if Truthy(Get(msg, "userId")) then Ok(Get(msg, "userId"))
    else match stored
      case Err(m) => Err(m)
      case Ok(s) => Ok(Or(Get(s, "userId"), Str(Anonymous)))
  }

  /** The preload's user id: the message's, else the cached one, else `"anonymous_user"`; always truthy. */
  function PreloadUserId(msg: Json, cached: Json): (r: Json)
    ensures Truthy(Get(msg, "userId")) ==> r == Get(msg, "userId")
    ensures !Truthy(Get(msg, "userId")) && Truthy(cached) ==> r == cached
    ensures !Truthy(Get(msg, "userId")) && !Truthy(cached) ==> r == Str(Anonymous)
    ensures Truthy(r)
  {
    Or(Or(Get(msg, "userId"), cached), Str(Anonymous))
  }

  /** The script's module-level cache. */
  class BackgroundCache {
    var cachedUserId: Json
    var cachedCookies: Json

    constructor ()
      ensures cachedUserId == Null && cachedCookies == Null
    {
      cachedUserId := Null;
      cachedCookies := Null;
    }

    /** `handleUploadCookies`. */
    method UploadCookies(msg: Json, stored: Result<Json>, cookies: Result<seq<BrowserCookie>>, reply: Result<Json>)
      returns (response: Json, posted: Option<Post>)
      modifies this
      ensures UploadUserId(msg, stored).Err? ==>
        (response == ErrorResponse("ok", stored.message) && posted.None?
         && cachedUserId == old(cachedUserId) && cachedCookies == old(cachedCookies))
      ensures UploadUserId(msg, stored).Ok? ==> cachedUserId == UploadUserId(msg, stored).value
      ensures UploadUserId(msg, stored).Ok? && cookies.Err? ==>
        (response == ErrorResponse("ok", cookies.message) && posted.None? && cachedCookies == old(cachedCookies))
      ensures UploadUserId(msg, stored).Ok? && cookies.Ok? ==>
        (&& cachedCookies == Str(CookieHeader(cookies.value))
         && posted == Some(Post(UploadCookiesUrl,
              Obj([("cookies", Str(CookieHeader(cookies.value))), ("userId", cachedUserId)])))
         && response == Obj([("ok", Bool(true)), ("server", PostJson(reply))]))
    {
      var userId := Get(msg, "userId");
      if !Truthy(userId) {
        if stored.Err? {
          return ErrorResponse("ok", stored.message), None;
        }
        userId := Or(Get(stored.value, "userId"), Str(Anonymous));
      }
      cachedUserId := userId;
      if cookies.Err? {
        return ErrorResponse("ok", cookies.message), None;
      }
      var cookieTxt := CookieHeader(cookies.value);
      cachedCookies := Str(cookieTxt);
      posted := Some(Post(UploadCookiesUrl, Obj([("cookies", Str(cookieTxt)), ("userId", cachedUserId)])));
      var result := PostJson(reply);
      response := Obj([("ok", Bool(true)), ("server", result)]);
    }

    /** `handlePreloadVideo`: the server's result is handed back as it came. */
    method PreloadVideo(msg: Json, reply: Result<Json>) returns (response: Json, posted: Option<Post>)
      ensures !Truthy(Get(msg, "videoUrl")) ==> response == NoVideoUrl && posted.None?
      ensures Truthy(Get(msg, "videoUrl")) ==>
        (&& posted == Some(Post(PreloadUrl,
              Obj([("url", Get(msg, "videoUrl")), ("userId", PreloadUserId(msg, cachedUserId))])))
         && response == PostJson(reply))
    {
      var videoUrl := Get(msg, "videoUrl");
      if !Truthy(videoUrl) {
        return NoVideoUrl, None;
      }
      var finalUserId := Or(Or(Get(msg, "userId"), cachedUserId), Str(Anonymous));
      posted := Some(Post(PreloadUrl, Obj([("url", videoUrl), ("userId", finalUserId)])));
      response := PostJson(reply);
    }

    /** The `onMessage` listener: the response it sends and the POST it makes. */
    method Dispatch(msg: Json, stored: Result<Json>, cookies: Result<seq<BrowserCookie>>, reply: Result<Json>)
      returns (response: Json, posted: Option<Post>)
      modifies this
      ensures Get(msg, "type") != Str("REQUEST_UPLOAD_COOKIES") && Get(msg, "type") != Str("REQUEST_PRELOAD_VIDEO") ==>
        (response == UnknownType && posted.None?
         && cachedUserId == old(cachedUserId) && cachedCookies == old(cachedCookies))
      ensures Get(msg, "type") == Str("REQUEST_PRELOAD_VIDEO") ==>
        (cachedUserId == old(cachedUserId) && cachedCookies == old(cachedCookies)
         && (!Truthy(Get(msg, "videoUrl")) ==> response == NoVideoUrl && posted.None?)
         && (Truthy(Get(msg, "videoUrl")) ==>
               (&& response == PostJson(reply)
                && posted == Some(Post(PreloadUrl,
                     Obj([("url", Get(msg, "videoUrl")), ("userId", PreloadUserId(msg, old(cachedUserId)))]))))))
      ensures Get(msg, "type") == Str("REQUEST_UPLOAD_COOKIES") && UploadUserId(msg, stored).Err? ==>
        (response == ErrorResponse("ok", stored.message) && posted.None?
         && cachedUserId == old(cachedUserId) && cachedCookies == old(cachedCookies))
      ensures Get(msg, "type") == Str("REQUEST_UPLOAD_COOKIES") && UploadUserId(msg, stored).Ok? ==>
        cachedUserId == UploadUserId(msg, stored).value
      ensures Get(msg, "type") == Str("REQUEST_UPLOAD_COOKIES") && UploadUserId(msg, stored).Ok? && cookies.Err? ==>
        (response == ErrorResponse("ok", cookies.message) && posted.None? && cachedCookies == old(cachedCookies))
      ensures Get(msg, "type") == Str("REQUEST_UPLOAD_COOKIES") && UploadUserId(msg, stored).Ok? && cookies.Ok? ==>
        (&& cachedCookies == Str(CookieHeader(cookies.value))
         && posted == Some(Post(UploadCookiesUrl,
              Obj([("cookies", Str(CookieHeader(cookies.value))), ("userId", cachedUserId)])))
         && response == Obj([("ok", Bool(true)), ("server", PostJson(reply))]))
    {
      if Get(msg, "type") == Str("REQUEST_UPLOAD_COOKIES") {
        response, posted := UploadCookies(msg, stored, cookies, reply);
      } else if Get(msg, "type") == Str("REQUEST_PRELOAD_VIDEO") {
        response, posted := PreloadVideo(msg, reply);
      } else {
        response, posted := UnknownType, None;
      }
    }
  }
}
