/**
 * `BaseServer` of base/__init__.py: its address fields, the default
 * not-found handler and the request middleware.
 */
module Server {
  import opened Wrappers
  import opened Http

  /** The decimal digit character for d. */
  function DigitChar(d: nat): (c: char)
    requires d < 10
    ensures '0' <= c <= '9' && (c as int) - ('0' as int) == d
  {
    ('0' as int + d) as char
  }

  predicate IsDigits(s: string)
  {
    forall i :: 0 <= i < |s| ==> '0' <= s[i] <= '9'
  }

  /** Decimal digits of n, most significant first, without leading zeros. */
  function NatText(n: nat): (s: string)
    ensures |s| > 0 && IsDigits(s)
    ensures s[0] == '0' ==> n == 0
    decreases n
  {
    if n < 10 then [DigitChar(n)] else NatText(n / 10) + [DigitChar(n % 10)]
  }

  /** `str(n)` for a Python int: a minus sign before the digits of a negative number. */
  function IntText(n: int): (s: string)
    ensures |s| > 0 && ':' !in s
    ensures (s[0] == '-') == (n < 0)
    ensures n < 0 ==> |s| > 1 && IsDigits(s[1..]) && s[1] != '0'
    ensures n >= 0 ==> IsDigits(s) && (s[0] == '0' ==> s == "0")
  {
    if n < 0 then "-" + NatText(-n) else NatText(n)
  }

  /** The value of a string of decimal digits (the inverse of NatText). */
  function DigitsValue(s: string): (n: nat)
    requires IsDigits(s)
  {
    if s == [] then 0
    else 10 * DigitsValue(s[..|s| - 1]) + ((s[|s| - 1] as int) - ('0' as int))
  }

  /** `int(t)` for a non-empty string of digits. */
  function ParseNat(t: string): (r: Option<nat>)
  {
    if |t| > 0 && IsDigits(t) then Some(DigitsValue(t)) else None
  }

  /** `int(s)` restricted to what `str` produces: an optional minus sign and digits. */
  function ParseInt(s: string): (r: Option<int>)
  {
    if |s| > 0 && s[0] == '-' then
      match ParseNat(s[1..])
      case None => None
      case Some(v) => Some(0 - v)
    else
      match ParseNat(s)
      case None => None
      case Some(v) => Some(v)
  }

  lemma {:induction false} NatTextRoundTrip(n: nat)
    ensures DigitsValue(NatText(n)) == n
    decreases n
  {
    if n >= 10 {
      var s := NatText(n / 10);
      var t := s + [DigitChar(n % 10)];
      assert t[..|t| - 1] == s;
      NatTextRoundTrip(n / 10);
    }
  }

  /** Reading back the text of an integer gives the integer. */
  lemma IntTextRoundTrip(n: int)
    ensures ParseInt(IntText(n)) == Some(n)
  {
    if n < 0 {
      var t := NatText(-n);
      NatTextRoundTrip(-n);
      assert ParseNat(t) == Some(-n);
      assert ("-" + t)[1..] == t;
    } else {
      var t := NatText(n);
      NatTextRoundTrip(n);
      assert ParseNat(t) == Some(n);
      assert t[0] != '-';
    }
  }

  /** `'http://%s:%s' % (host, port)`. */
  function Url(host: string, port: int): (url: string)
    ensures |url| == 8 + |host| + |IntText(port)|
    ensures url[..7] == "http://" && url[7..7 + |host|] == host
    ensures url[7 + |host|] == ':' && url[8 + |host|..] == IntText(port)
  {
    var digits := IntText(port);
    "http://" + host + ":" + digits
  }

  /** Splits s at its last colon, if it has one. */
  function SplitAtLastColon(s: string): (r: Option<(string, string)>)
    ensures r.Some? ==> s == r.value.0 + ":" + r.value.1 && ':' !in r.value.1
    ensures r.None? ==> ':' !in s
  {
    if s == [] then None
    else if s[|s| - 1] == ':' then Some((s[..|s| - 1], ""))
    else
      match SplitAtLastColon(s[..|s| - 1])
      case None =>
        assert s == s[..|s| - 1] + [s[|s| - 1]];
        None
      case Some(parts) =>
        assert s == s[..|s| - 1] + [s[|s| - 1]];
        Some((parts.0, parts.1 + [s[|s| - 1]]))
  }

  /** Reads host and port back from a server url. */
  function ParseUrl(url: string): (r: Option<(string, int)>)
  {
    if |url| < 7 || url[..7] != "http://" then None
    else
      match SplitAtLastColon(url[7..])
      case None => None
      case Some(parts) =>
        match ParseInt(parts.1)
        case None => None
        case Some(port) => Some((parts.0, port))
  }

  /** The split at the last colon of `a + ":" + b` is (a, b) when b has no colon. */
  lemma {:induction false} SplitAtLastColonOf(a: string, b: string)
    requires ':' !in b
    ensures SplitAtLastColon(a + ":" + b) == Some((a, b))
    decreases |b|
  {
    var s := a + ":" + b;
    if b == [] {
      assert s[..|s| - 1] == a;
    } else {
      var b' := b[..|b| - 1];
      assert s[..|s| - 1] == a + ":" + b';
      assert b == b' + [b[|b| - 1]];
      SplitAtLastColonOf(a, b');
    }
  }

  /** The url determines the host and the port it was built from, whatever the host contains. */
  lemma UrlRoundTrip(host: string, port: int)
    ensures ParseUrl(Url(host, port)) == Some((host, port))
  {
    var url := Url(host, port);
    assert url[..7] == "http://";
    assert url[7..] == host + ":" + IntText(port);
    SplitAtLastColonOf(host, IntText(port));
    IntTextRoundTrip(port);
  }

  const DefaultHost := "127.0.0.1"
  const DefaultPort := 53001

  /** The address a server has when constructed without arguments. */
  lemma DefaultUrl()
    ensures Url(DefaultHost, DefaultPort) == "http://127.0.0.1:53001"
  {
    assert 53 / 10 == 5 && 53 % 10 == 3;
    assert 530 / 10 == 53 && 530 % 10 == 0;
    assert 5300 / 10 == 530 && 5300 % 10 == 0;
    assert 53001 / 10 == 5300 && 53001 % 10 == 1;
  }

  /** A server's address; `is_ready`, the event loop and the logger are not modelled. */
  class BaseServer {
    var host: string
    var port: int
    var url: string

    /** `BaseServer(host, port)`: records the address and the url derived from it. */
    constructor (host: string, port: int)
      ensures this.host == host && this.port == port
      ensures url == "http://" + host + ":" + IntText(port)
      ensures ParseUrl(url) == Some((host, port))
    {
      this.host := host;
      this.port := port;
      url := Url(host, port);
      UrlRoundTrip(host, port);
    }

    /** `BaseServer()`: the default address. */
    constructor Default()
      ensures host == "127.0.0.1" && port == 53001
      ensures url == "http://127.0.0.1:53001"
    {
      host := DefaultHost;
      port := DefaultPort;
      url := Url(DefaultHost, DefaultPort);
      DefaultUrl();
    }
  }

  /** The default `not_found_handler`: it raises `HTTPNotFound`. */
  function DefaultNotFoundHandler(request: Request): (o: Outcome<Response>)
    ensures o.Raised? && o.ex.notFound && o.ex.className == "HTTPNotFound"
  {
    Raised(NotFoundException)
  }

  /**
   * `middleware(request, handler)`: logs the request, awaits the handler,
   * turns `HTTPNotFound` into the outcome of `notFound(request)` and any
   * other exception into a logged 500 response, then logs the response and
   * returns it. An exception raised by `notFound` escapes before the
   * response is logged.
   */
  function Middleware(request: Request, handler: Request -> Outcome<Response>,
                      notFound: Request -> Outcome<Response>): (x: Logged<Response>)
    ensures handler(request).Returned? ==>
      x == Logged(handler(request), [LoggedRequest(request), LoggedResponse(handler(request).value)])
    ensures handler(request).Raised? && handler(request).ex.notFound ==>
      && x.outcome == notFound(request)
      && x.log == [LoggedRequest(request)]
         + (if notFound(request).Returned? then [LoggedResponse(notFound(request).value)] else [])
    ensures handler(request).Raised? && !handler(request).ex.notFound ==>
      var ex := handler(request).ex;
      x == Logged(Returned(Exception500(ex)),
                  [LoggedRequest(request), LoggedError(ex), LoggedResponse(Exception500(ex))])
  {
    var head := [LoggedRequest(request)];
    match handler(request)
    case Returned(response) => Logged(Returned(response), head + [LoggedResponse(response)])
    case Raised(ex) =>
      if ex.notFound then
        match notFound(request)
        case Returned(response) => Logged(Returned(response), head + [LoggedResponse(response)])
        case Raised(escaped) => Logged(Raised(escaped), head)
      else
        var response := Exception500(ex);
        Logged(Returned(response), head + [LoggedError(ex), LoggedResponse(response)])
  }

  /**
   * The middleware lets an exception through only when the handler raised
   * `HTTPNotFound` and the not-found handler raised too; otherwise it
   * returns a response, and the last thing it logged is that response.
   */
  lemma MiddlewareEscapesOnlyFromNotFound(request: Request, handler: Request -> Outcome<Response>,
                                          notFound: Request -> Outcome<Response>)
    ensures var x := Middleware(request, handler, notFound);
      && |x.log| > 0 && x.log[0] == LoggedRequest(request)
      && (x.outcome.Raised? <==>
            handler(request).Raised? && handler(request).ex.notFound && notFound(request).Raised?)
      && (x.outcome.Returned? ==> x.log[|x.log| - 1] == LoggedResponse(x.outcome.value))
  {
  }

  /**
   * With the default not-found handler a missing route leaves the middleware
   * as `HTTPNotFound` (for the web framework to answer), never as a 500.
   */
  lemma DefaultNotFoundPropagates(request: Request, handler: Request -> Outcome<Response>)
    requires handler(request).Raised? && handler(request).ex.notFound
    ensures Middleware(request, handler, DefaultNotFoundHandler).outcome == Raised(NotFoundException)
  {
  }

  /** Whatever a handler raises other than `HTTPNotFound` comes back as a 500 report of it. */
  lemma HandlerFailureIs500(request: Request, handler: Request -> Outcome<Response>,
                            notFound: Request -> Outcome<Response>)
    requires handler(request).Raised? && !handler(request).ex.notFound
    ensures var x := Middleware(request, handler, notFound);
      && x.outcome.Returned? && x.outcome.value.status == 500
      && x.outcome.value.data.Some?
      && x.outcome.value.data.value.fields["error"] == JString(handler(request).ex.message)
      && x.outcome.value.data.value.fields["type"] == JString(handler(request).ex.className)
  {
  }
}
