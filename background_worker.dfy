/**
 * The extension's service worker, src/background/index.ts: the Netscape
 * cookie-file serialiser, the registry of connected popup ports, and what
 * the worker forwards once the server answers a subtitle request.
 *
 * `Date.now()` is the parameter `now` (milliseconds); the browser's cookie
 * store, `fetch` and tab messaging are inputs and outputs of the functions
 * below.
 */
module BackgroundWorker {
  import opened Wrappers
  import opened Text
  import opened JsValues

  // ---------------------------------------------------------------------
  // cookiesToNetscape

  const NetscapeHeader := "# Netscape HTTP Cookie File"

  /** One year in seconds, the lifetime given to a cookie without an expiry. */
  const DefaultLifetime := 365 * 24 * 3600

  /**
   * A cookie as `chrome.cookies.getAll` reports it. A missing string field is
   * the empty string; a missing `expirationDate` (a session cookie) is `None`.
   */
  datatype Cookie = Cookie(
    domain: string,
    hostOnly: bool,
    path: string,
    secure: bool,
    expirationDate: Option<real>,
    name: string,
    value: string)

  /** The domain column: empty stays empty, otherwise exactly one leading dot. */
  function NetscapeDomain(d: string): (r: string)
    ensures d == "" <==> r == ""
    ensures d != "" ==> r[0] == '.' && r[1..] == (if d[0] == '.' then d[1..] else d)
  {
    if d == "" then "" else if d[0] == '.' then d else "." + d
  }

  /** Writing the domain column of a value that is already a domain column changes nothing: a dot is never doubled. */
  lemma NetscapeDomainIdempotent(d: string)
    ensures NetscapeDomain(NetscapeDomain(d)) == NetscapeDomain(d)
  {
  }

  /** `c.expirationDate` is truthy: present and not zero. */
  predicate HasExpiry(c: Cookie)
  {
    c.expirationDate.Some? && c.expirationDate.value != 0.0
  }

  /**
   * The expiry column: the expiration date rounded down to whole seconds, or
   * one year after the current time (rounded down to whole seconds).
   */
  function Expiry(c: Cookie, now: nat): int
  {
    if HasExpiry(c) then c.expirationDate.value.Floor else now / 1000 + DefaultLifetime
  }

  /** The expiry column lies within a second below the cookie's date, or within a second below a year from now. */
  lemma ExpiryBounds(c: Cookie, now: nat)
    ensures HasExpiry(c) ==> Expiry(c, now) as real <= c.expirationDate.value < Expiry(c, now) as real + 1.0
    ensures !HasExpiry(c) ==>
      (Expiry(c, now) - DefaultLifetime) * 1000 <= now < (Expiry(c, now) - DefaultLifetime + 1) * 1000
  {
  }

  /** The seven columns of a cookie's line. */
  function CookieFields(c: Cookie, now: nat): seq<string>
  {
    [ NetscapeDomain(c.domain),
      if c.hostOnly then "FALSE" else "TRUE",
      if c.path == "" then "/" else c.path,
      if c.secure then "TRUE" else "FALSE",
      IntToDecimal(Expiry(c, now)),
      c.name,
      c.value ]
  }

  function CookieLine(c: Cookie, now: nat): string
  {
    Join(CookieFields(c, now), "\t")
  }

  /** One line per cookie, in input order. */
  function CookieLines(cookies: seq<Cookie>, now: nat): (lines: seq<string>)
    ensures |lines| == |cookies|
    ensures forall i :: 0 <= i < |cookies| ==> lines[i] == CookieLine(cookies[i], now)
  {
    if |cookies| == 0 then []
    else
      var init := cookies[..|cookies| - 1];
      assert forall i :: 0 <= i < |init| ==> init[i] == cookies[i];
      CookieLines(init, now) + [CookieLine(cookies[|cookies| - 1], now)]
  }

  /** The lines of the cookie file: the header, then one line per cookie in input order. */
  function NetscapeLines(cookies: seq<Cookie>, now: nat): (lines: seq<string>)
    ensures |lines| == |cookies| + 1 && lines[0] == NetscapeHeader
    ensures forall i :: 0 <= i < |cookies| ==> lines[i + 1] == CookieLine(cookies[i], now)
  {
    [NetscapeHeader] + CookieLines(cookies, now)
  }

  /** `cookiesToNetscape(cookies)` at time `now`. */
  method CookiesToNetscape(cookies: seq<Cookie>, now: nat) returns (text: string)
    ensures text == Join(NetscapeLines(cookies, now), "\n")
  {
    var lines := [];
    var i := 0;
    while i < |cookies|
      invariant 0 <= i <= |cookies|
      invariant lines == CookieLines(cookies[..i], now)
    {
      assert cookies[..i + 1][..i] == cookies[..i];
      lines := lines + [CookieLine(cookies[i], now)];
      i := i + 1;
    }
    assert cookies[..i] == cookies;
    text := Join([NetscapeHeader] + lines, "\n");
  }

  /** A character that none of the parts nor the separator holds is not in their join. */
  lemma {:induction false} NotInJoin(xs: seq<string>, sep: string, c: char)
    requires c !in sep
    requires forall i :: 0 <= i < |xs| ==> c !in xs[i]
    ensures c !in Join(xs, sep)
  {
    if |xs| > 1 {
      NotInJoin(xs[1..], sep, c);
    }
  }

  lemma NotInDecimal(n: int, c: char)
    requires !IsDigit(c) && c != '-'
    ensures c !in IntToDecimal(n)
  {
    var r := if n < 0 then NatToDecimal(-n) else NatToDecimal(n);
    assert c !in r by {
      forall k | 0 <= k < |r| ensures r[k] != c {
        assert IsDigit(r[k]);
      }
    }
  }

  /** The text fields a cookie carries over verbatim hold no character `c`. */
  predicate FreeOf(ck: Cookie, c: char)
  {
    c !in ck.domain && c !in ck.path && c !in ck.name && c !in ck.value
  }

  lemma CookieFieldsFreeOf(ck: Cookie, now: nat, c: char)
    requires FreeOf(ck, c) && c != '.' && c != '/' && !IsDigit(c) && c != '-'
    requires c !in "TRUE" && c !in "FALSE"
    ensures forall i :: 0 <= i < 7 ==> c !in CookieFields(ck, now)[i]
  {
    NotInDecimal(Expiry(ck, now), c);
  }

  /**
   * A cookie line read back at its tabs gives exactly the seven columns, as
   * long as no carried-over field holds a tab.
   */
  lemma CookieLineColumns(ck: Cookie, now: nat)
    requires FreeOf(ck, '\t')
    ensures Split(CookieLine(ck, now), '\t') == CookieFields(ck, now)
  {
    CookieFieldsFreeOf(ck, now, '\t');
    SplitJoin(CookieFields(ck, now), '\t');
  }

  /**
   * The cookie file read back at its line breaks gives the header and then one
   * line per cookie, in order, as long as no carried-over field holds a line
   * break.
   */
  lemma NetscapeTextLines(cookies: seq<Cookie>, now: nat)
    requires forall i :: 0 <= i < |cookies| ==> FreeOf(cookies[i], '\n')
    ensures Split(Join(NetscapeLines(cookies, now), "\n"), '\n') == NetscapeLines(cookies, now)
  {
    LinesFreeOfNewline(cookies, now);
    SplitJoin(NetscapeLines(cookies, now), '\n');
  }

  lemma LinesFreeOfNewline(cookies: seq<Cookie>, now: nat)
    requires forall i :: 0 <= i < |cookies| ==> FreeOf(cookies[i], '\n')
    ensures forall i :: 0 <= i < |NetscapeLines(cookies, now)| ==> '\n' !in NetscapeLines(cookies, now)[i]
  {
    HeaderFreeOfNewline();
    CookieLinesFreeOfNewline(cookies, now);
    ConsFreeOf(NetscapeHeader, CookieLines(cookies, now), '\n');
  }

  lemma HeaderFreeOfNewline()
    ensures '\n' !in NetscapeHeader
  {
  }

  lemma ConsFreeOf(head: string, rest: seq<string>, c: char)
    requires c !in head
    requires forall i :: 0 <= i < |rest| ==> c !in rest[i]
    ensures forall i :: 0 <= i < |[head] + rest| ==> c !in ([head] + rest)[i]
  {
    forall i | 0 <= i < |[head] + rest| ensures c !in ([head] + rest)[i] {
      if i > 0 {
        assert ([head] + rest)[i] == rest[i - 1];
      }
    }
  }

  lemma CookieLinesFreeOfNewline(cookies: seq<Cookie>, now: nat)
    requires forall i :: 0 <= i < |cookies| ==> FreeOf(cookies[i], '\n')
    ensures forall i :: 0 <= i < |CookieLines(cookies, now)| ==> '\n' !in CookieLines(cookies, now)[i]
  {
    forall i | 0 <= i < |cookies| ensures '\n' !in CookieLines(cookies, now)[i] {
      CookieLineFreeOfNewline(cookies[i], now);
    }
  }

  lemma CookieLineFreeOfNewline(ck: Cookie, now: nat)
    requires FreeOf(ck, '\n')
    ensures '\n' !in CookieLine(ck, now)
  {
    CookieFieldsFreeOf(ck, now, '\n');
    NotInJoin(CookieFields(ck, now), "\t", '\n');
  }

  // ---------------------------------------------------------------------
  // popupPorts

  const LoggerPortName := "popup-logger"

  /** A `chrome.runtime.Port`; ports are compared by identity, as `!==` does. */
  class Port {
    const name: string

    constructor (name: string)
      ensures this.name == name
    {
      this.name := name;
    }
  }

  /** `ports.filter((p) => p !== port)`. */
  function RemovePort(ports: seq<Port>, port: Port): (r: seq<Port>)
    ensures |r| <= |ports|
  {
    if |ports| == 0 then []
    else if ports[0] == port then RemovePort(ports[1..], port)
    else [ports[0]] + RemovePort(ports[1..], port)
  }

  /** The filter drops every entry of the disconnected port and keeps every other entry. */
  lemma {:induction false} RemovePortContents(ports: seq<Port>, port: Port)
    ensures port !in RemovePort(ports, port)
    ensures forall i :: 0 <= i < |RemovePort(ports, port)| ==> RemovePort(ports, port)[i] in ports
    ensures forall q :: q in ports && q != port ==> q in RemovePort(ports, port)
  {
    if |ports| > 0 {
      RemovePortContents(ports[1..], port);
      assert ports == [ports[0]] + ports[1..];
    }
  }

  predicate Distinct(ports: seq<Port>)
  {
    forall i, j :: 0 <= i < j < |ports| ==> ports[i] != ports[j]
  }

  /** Removing a port that is not listed keeps the list as it is. */
  lemma {:induction false} RemoveAbsent(ports: seq<Port>, port: Port)
    requires port !in ports
    ensures RemovePort(ports, port) == ports
  {
    if |ports| > 0 {
      RemoveAbsent(ports[1..], port);
    }
  }

  /** Removing a port listed once drops that entry and keeps the others in order. */
  lemma {:induction false} RemoveOnce(before: seq<Port>, port: Port, after: seq<Port>)
    requires port !in before && port !in after
    ensures RemovePort(before + [port] + after, port) == before + after
  {
    if |before| == 0 {
      assert before + [port] + after == [port] + after;
      assert ([port] + after)[1..] == after;
      RemoveAbsent(after, port);
    } else {
      var s := before + [port] + after;
      assert s[0] == before[0] && before[0] != port;
      assert s[1..] == before[1..] + [port] + after;
      assert RemovePort(s, port) == [s[0]] + RemovePort(s[1..], port);
      RemoveOnce(before[1..], port, after);
      assert [before[0]] + (before[1..] + after) == before + after;
    }
  }

  /** The worker's list of connected popup loggers. */
  class PopupRegistry {
    var ports: seq<Port>

    /** Every listed port is a popup logger, and none is listed twice. */
    predicate Valid()
      reads this
    {
      && (forall i :: 0 <= i < |ports| ==> ports[i].name == LoggerPortName)
      && Distinct(ports)
    }

    constructor ()
      ensures ports == [] && Valid()
    {
      ports := [];
    }

    /**
     * `onConnect`: a popup logger is appended and greeted with the idle
     * status; a port with any other name is ignored.
     */
    method Connect(port: Port) returns (greeting: Option<Json>)
      modifies this
      ensures port.name == LoggerPortName ==> ports == old(ports) + [port]
      ensures port.name != LoggerPortName ==> ports == old(ports)
      ensures greeting.Some? <==> port.name == LoggerPortName
      ensures greeting.Some? ==> greeting.value == Obj([("type", Str("STATUS")), ("status", Str("idle"))])
      ensures old(Valid()) && port !in old(ports) ==> Valid()
    {
      greeting := None;
      if port.name == LoggerPortName {
        ports := ports + [port];
        greeting := Some(Obj([("type", Str("STATUS")), ("status", Str("idle"))]));
      }
    }

    /**
     * The `onDisconnect` listener that `Connect` installs on a popup logger;
     * other ports have none.
     */
    method Disconnect(port: Port)
      modifies this
      ensures port.name == LoggerPortName ==> ports == RemovePort(old(ports), port)
      ensures port.name != LoggerPortName ==> ports == old(ports)
      ensures old(Valid()) ==> Valid()
    {
      if port.name == LoggerPortName {
        if Valid() {
          RemoveKeepsDistinct(ports, port);
          RemovePortContents(ports, port);
        }
        ports := RemovePort(ports, port);
      }
    }

    /** `sendToPopups(msg)`: one delivery per listed port, in list order. */
    method SendToPopups(msg: Json) returns (sent: seq<(Port, Json)>)
      ensures |sent| == |ports|
      ensures forall i :: 0 <= i < |ports| ==> sent[i] == (ports[i], msg)
    {
      sent := [];
      var i := 0;
      while i < |ports|
        invariant 0 <= i <= |ports|
        invariant |sent| == i
        invariant forall k :: 0 <= k < i ==> sent[k] == (ports[k], msg)
      {
        sent := sent + [(ports[i], msg)];
        i := i + 1;
      }
    }
  }

  /** Filtering a list without repeats leaves a list without repeats. */
  lemma {:induction false} RemoveKeepsDistinct(ports: seq<Port>, port: Port)
    requires Distinct(ports)
    ensures Distinct(RemovePort(ports, port))
  {
    if |ports| > 0 {
      RemoveKeepsDistinct(ports[1..], port);
      forall k | 0 <= k < |ports| - 1 ensures ports[1..][k] != ports[0] {
        assert ports[1..][k] == ports[k + 1];
      }
      var rest := RemovePort(ports[1..], port);
      RemovePortContents(ports[1..], port);
      assert ports[0] !in ports[1..];
      assert ports[0] !in rest;
      if ports[0] != port {
        var r := [ports[0]] + rest;
        assert RemovePort(ports, port) == r;
        forall i, j | 0 <= i < j < |r| ensures r[i] != r[j] {
          if i == 0 {
            assert r[j] == rest[j - 1];
          } else {
            assert r[i] == rest[i - 1] && r[j] == rest[j - 1];
          }
        }
      } else {
        assert RemovePort(ports, port) == rest;
      }
    }
  }

  /** A popup that connects and then disconnects leaves the list as it found it. */
  lemma ConnectThenDisconnect(ports: seq<Port>, port: Port)
    requires port !in ports
    ensures RemovePort(ports + [port], port) == ports
  {
    RemoveOnce(ports, port, []);
    assert ports + [port] + [] == ports + [port];
  }

  // ---------------------------------------------------------------------
  // REQUEST_PERSIAN_SUBS

  /** The single caption stretched over the whole video when the server sent no English segments. */
  function FallbackCaption(persian: Json): Json
  {
    Obj([("start", Num(0)), ("end", Num(9999)), ("text", persian)])
  }

  /** `data.englishSegments || [{ start: 0, end: 9999, text: data.persian }]`. */
  function ForwardedCaptions(data: Json): (r: Json)
    ensures Truthy(Get(data, "englishSegments")) ==> r == Get(data, "englishSegments")
    ensures !Truthy(Get(data, "englishSegments")) ==> r == Arr([FallbackCaption(Get(data, "persian"))])
    ensures Truthy(r)
  {
    Or(Get(data, "englishSegments"), Arr([FallbackCaption(Get(data, "persian"))]))
  }

  datatype TabMessage = TabMessage(tabId: int, message: Json)

  /** What the handler sends: messages to every popup, and at most one message to the requesting tab. */
  datatype SubsEffects = SubsEffects(toPopups: seq<Json>, toTab: Option<TabMessage>)

  /** `String(new Error(message))`: the name, then `: ` and the message unless it is empty. */
  function ErrorString(message: string): (r: string)
    ensures message == "" ==> r == "Error"
    ensures message != "" ==> r == "Error: " + message && r[7..] == message
  {
    if message == "" then "Error" else "Error: " + message
  }

  function StatusError(error: string): Json
  {
    Obj([("type", Str("STATUS")), ("status", Str("error")), ("error", Str(error))])
  }

  /**
   * The asynchronous part of REQUEST_PERSIAN_SUBS once the POST to `/preload`
   * has settled. `fetched` is `Ok(data)` for a 2xx reply whose body parsed,
   * or `Err(text)` with `String(err)` of what `fetch`, the status check or the
   * body parse threw. `senderTab` is `sender.tab.id`.
   */
  function PersianSubsEffects(fetched: Result<Json>, senderTab: Option<int>): (e: SubsEffects)
    ensures |e.toPopups| == 1
    ensures e.toTab.Some? <==>
      (fetched.Ok? && !IsNullish(fetched.value) && Truthy(Get(fetched.value, "success"))
       && senderTab.Some? && senderTab.value != 0)
    ensures e.toTab.Some? ==> e.toTab.value == TabMessage(senderTab.value,
      Obj([("type", Str("SHOW_TIMED_SUBS")), ("captions", ForwardedCaptions(fetched.value))]))
    ensures fetched.Err? ==> e.toPopups == [StatusError(fetched.message)]
    ensures fetched.Ok? && IsNullish(fetched.value) ==>
      e.toPopups == [StatusError("TypeError: Cannot read properties of " + ToString(fetched.value) + " (reading 'success')")]
    ensures fetched.Ok? && !IsNullish(fetched.value) && !Truthy(Get(fetched.value, "success")) ==>
      e.toPopups == [StatusError(ErrorString(ToString(Or(Get(fetched.value, "error"), Str("Server error")))))]
    ensures fetched.Ok? && !IsNullish(fetched.value) && Truthy(Get(fetched.value, "success")) ==>
      e.toPopups == [Obj([("type", Str("TRANSCRIPT")), ("text", Or(Get(fetched.value, "persian"), Str("No text")))])]
  {
    match fetched
    case Err(m) => SubsEffects([StatusError(m)], None)
    case Ok(data) =>
      if IsNullish(data) then
        SubsEffects([StatusError("TypeError: Cannot read properties of " + ToString(data) + " (reading 'success')")], None)
      else if !Truthy(Get(data, "success")) then
        SubsEffects([StatusError(ErrorString(ToString(Or(Get(data, "error"), Str("Server error")))))], None)
      else
        var transcript := Obj([("type", Str("TRANSCRIPT")), ("text", Or(Get(data, "persian"), Str("No text")))]);
        var toTab :=
          if senderTab.Some? && senderTab.value != 0 then
            Some(TabMessage(senderTab.value,
              Obj([("type", Str("SHOW_TIMED_SUBS")), ("captions", ForwardedCaptions(data))])))
          else None;
        SubsEffects([transcript], toTab)
  }

  /** A server reply without English segments reaches the tab as one caption from 0 to 9999 carrying the Persian text. */
  lemma FallbackReachesTab(data: Json, tab: int)
    requires data.Obj? && Truthy(Get(data, "success")) && !Truthy(Get(data, "englishSegments")) && tab != 0
    ensures PersianSubsEffects(Ok(data), Some(tab)).toTab ==
      Some(TabMessage(tab, Obj([("type", Str("SHOW_TIMED_SUBS")),
        ("captions", Arr([Obj([("start", Num(0)), ("end", Num(9999)), ("text", Get(data, "persian"))])]))])))
  {
  }
}
