/**
 * The restify compatibility layer of lib/qrestify.js: content negotiation
 * by `req.accepts` and the `acceptParser` middleware, the restify route
 * verbs that forward every argument after the path as a handler, the
 * `bodyParser` wrapper that drops body-decoding errors, and `res.send`,
 * which normalises its arguments, picks an encoding from the body and
 * writes the response.
 *
 * `JSON.stringify` is foreign: it is a parameter of `res.send`.
 */
module QRestify {
  import opened Common
  import opened JsStrings
  import opened RLib
  import opened QRoute
  import opened Restiq
  import opened Pipeline

  // ---------------------------------------------------------------------
  // req.accepts

  /** What `accepts` is given: one type as a string, or a list of types. */
  datatype Offered = OneType(t: string) | TypeList(ts: seq<string>)

  /** What `accepts` returns: a type, `undefined` (`types[0]` of an empty list), or `false`. */
  datatype Accepted = Type(t: string) | NoType | NoMatch

  function OfferedList(o: Offered): seq<string>
  {
    match o
    case OneType(t) => [t]
    case TypeList(ts) => ts
  }

  /** The `aliases` table: bare names that stand for a full media type. */
  function Alias(name: string): Option<string>
  {
    if name == "text" then Some("text/plain")
    else if name == "html" then Some("text/html")
    else if name == "json" then Some("application/json")
    else None
  }

  /** `types.indexOf(t)`. */
  function Position(ts: seq<string>, t: string): (k: int)
    ensures -1 <= k < |ts|
    ensures k >= 0 ==> ts[k] == t && t !in ts[..k]
    ensures k == -1 <==> t !in ts
  {
    if ts == [] then -1
    else if ts[0] == t then 0
    else
      var k := Position(ts[1..], t);
      if k < 0 then -1
      else
        assert ts[..k + 1] == [ts[0]] + ts[1..][..k];
        k + 1
  }

  /** What one trimmed header token selects: itself when offered, else its alias when it has no `/`. */
  function Hit(token: string, ts: seq<string>): Option<string>
  {
    if token in ts then Some(token)
    else if '/' !in token then Alias(token)
    else None
  }

  /** Token `j`, at or after `i`, is the first one there, in header order, that selects a type. */
  predicate FirstHitAt(tokens: seq<string>, ts: seq<string>, i: int, j: int)
  {
    0 <= i <= j < |tokens| && Hit(tokens[j], ts).Some?
    && forall k | i <= k < j :: Hit(tokens[k], ts).None?
  }

  /** The search loop of `accepts` over the trimmed tokens from index `i` on. */
  function FirstHit(tokens: seq<string>, ts: seq<string>, i: nat): Accepted
    requires i <= |tokens|
    decreases |tokens| - i
  {
    if i == |tokens| then NoMatch
    else
      var h := Hit(tokens[i], ts);
      if h.Some? then Type(h.value) else FirstHit(tokens, ts, i + 1)
  }

  /**
   * The search answers `false` exactly when no token selects a type, and
   * otherwise the type the first selecting token names; never `undefined`.
   */
  lemma {:induction false} FirstHitMeaning(tokens: seq<string>, ts: seq<string>, i: nat)
    requires i <= |tokens|
    ensures !FirstHit(tokens, ts, i).NoType?
    ensures FirstHit(tokens, ts, i).NoMatch? <==> forall k | i <= k < |tokens| :: Hit(tokens[k], ts).None?
    ensures FirstHit(tokens, ts, i).Type? ==>
              exists j :: FirstHitAt(tokens, ts, i, j) && Hit(tokens[j], ts) == Some(FirstHit(tokens, ts, i).t)
    decreases |tokens| - i
  {
    if i < |tokens| {
      if Hit(tokens[i], ts).Some? {
        assert FirstHitAt(tokens, ts, i, i);
      } else {
        FirstHitMeaning(tokens, ts, i + 1);
        var r := FirstHit(tokens, ts, i + 1);
        if r.Type? {
          var j :| FirstHitAt(tokens, ts, i + 1, j) && Hit(tokens[j], ts) == Some(r.t);
          assert FirstHitAt(tokens, ts, i, j);
        }
      }
    }
  }

  /** Tokens that select nothing are passed over. */
  lemma {:induction false} FirstHitSkipsMisses(tokens: seq<string>, ts: seq<string>, i: nat)
    requires i <= |tokens| && forall k | 0 <= k < i :: Hit(tokens[k], ts).None?
    ensures FirstHit(tokens, ts, 0) == FirstHit(tokens, ts, i)
    decreases i
  {
    if i > 0 {
      FirstHitSkipsMisses(tokens, ts, i - 1);
    }
  }

  /** Every token trimmed. */
  function TrimAll(tokens: seq<string>): (r: seq<string>)
    ensures |r| == |tokens| && forall i | 0 <= i < |tokens| :: r[i] == Trim(tokens[i])
  {
    seq(|tokens|, i requires 0 <= i < |tokens| => Trim(tokens[i]))
  }

  /** The Accept header, "" when it is missing. */
  function AcceptHeader(headers: map<string, string>): string
  {
    if "accept" in headers then headers["accept"] else ""
  }

  /** `req.accepts(types)` on the request's headers. */
  function AcceptsSpec(headers: map<string, string>, ts: seq<string>): Accepted
  {
    var h := AcceptHeader(headers);
    if h == "" || Contains(h, "*/*") then (if ts == [] then NoType else Type(ts[0]))
    else FirstHit(TrimAll(Split(h, ';')), ts, 0)
  }

  /** `req.accepts(types)`: the wildcard shortcut, then a search over the header's tokens. */
  method Accepts(req: Request, types: Offered) returns (r: Accepted)
    ensures r == AcceptsSpec(req.headers, OfferedList(types))
  {
    var headers := req.headers;
    var ts := OfferedList(types);
    var h := AcceptHeader(headers);
    if h == "" || IndexOf(h, "*/*") >= 0 {
      AcceptsWildcard(headers, ts);
      return if ts == [] then NoType else Type(ts[0]);
    }
    AcceptsTokens(headers, ts);
    r := SearchTokens(Split(h, ';'), ts);
  }

  /** The loop of `accepts`: the first token that is offered, or whose alias is, decides. */
  method SearchTokens(tokens: seq<string>, ts: seq<string>) returns (r: Accepted)
    ensures r == FirstHit(TrimAll(tokens), ts, 0)
  {
    var i := 0;
    while i < |tokens|
      invariant 0 <= i <= |tokens|
      invariant forall k | 0 <= k < i :: Hit(Trim(tokens[k]), ts).None?
    {
      var hit := Select(Trim(tokens[i]), ts);
      if hit.Some? {
        TrimmedHit(tokens, ts, i);
        return Type(hit.value);
      }
      MissesExtend(tokens, ts, i);
      i := i + 1;
    }
    TrimmedMisses(tokens, ts);
    return NoMatch;
  }

  /** The first trimmed token that selects a type decides the search. */
  lemma TrimmedHit(tokens: seq<string>, ts: seq<string>, i: nat)
    requires i < |tokens| && Hit(Trim(tokens[i]), ts).Some?
    requires forall k | 0 <= k < i :: Hit(Trim(tokens[k]), ts).None?
    ensures FirstHit(TrimAll(tokens), ts, 0) == Type(Hit(Trim(tokens[i]), ts).value)
  {
    FirstHitIs(TrimAll(tokens), ts, i);
  }

  /** One more token that selects nothing. */
  lemma MissesExtend(tokens: seq<string>, ts: seq<string>, i: nat)
    requires i < |tokens| && Hit(Trim(tokens[i]), ts).None?
    requires forall k | 0 <= k < i :: Hit(Trim(tokens[k]), ts).None?
    ensures forall k | 0 <= k < i + 1 :: Hit(Trim(tokens[k]), ts).None?
  {
  }

  /** When no trimmed token selects a type the search answers `false`. */
  lemma TrimmedMisses(tokens: seq<string>, ts: seq<string>)
    requires forall k | 0 <= k < |tokens| :: Hit(Trim(tokens[k]), ts).None?
    ensures FirstHit(TrimAll(tokens), ts, 0) == NoMatch
  {
    var trimmed := TrimAll(tokens);
    FirstHitSkipsMisses(trimmed, ts, |tokens|);
  }

  /** One token as the loop reads it: offered (`indexOf`), else a bare name's alias, else nothing. */
  method Select(token: string, ts: seq<string>) returns (hit: Option<string>)
    ensures hit == Hit(token, ts)
  {
    var idx := Position(ts, token);
    if idx >= 0 {
      return Some(ts[idx]);
    }
    if IndexOfChar(token, '/') < 0 {
      return Alias(token);
    }
    return None;
  }

  /** The first token that selects a type decides the search. */
  lemma FirstHitIs(tokens: seq<string>, ts: seq<string>, i: nat)
    requires i < |tokens| && Hit(tokens[i], ts).Some?
    requires forall k | 0 <= k < i :: Hit(tokens[k], ts).None?
    ensures FirstHit(tokens, ts, 0) == Type(Hit(tokens[i], ts).value)
  {
    FirstHitSkipsMisses(tokens, ts, i);
  }

  /** A present header without the wildcard type is searched token by token. */
  lemma AcceptsTokens(headers: map<string, string>, ts: seq<string>)
    requires AcceptHeader(headers) != "" && !Contains(AcceptHeader(headers), "*/*")
    ensures AcceptsSpec(headers, ts) == FirstHit(TrimAll(Split(AcceptHeader(headers), ';')), ts, 0)
  {
  }

  /** Without an Accept header, or with one that holds the wildcard type, the first offered type wins. */
  lemma AcceptsWildcard(headers: map<string, string>, ts: seq<string>)
    requires AcceptHeader(headers) == "" || Contains(AcceptHeader(headers), "*/*")
    ensures AcceptsSpec(headers, ts) == if ts == [] then NoType else Type(ts[0])
  {
  }

  /** A header of one plain token: no wildcard, no `;`, no surrounding space. */
  predicate PlainToken(h: string)
  {
    h != "" && '*' !in h && ';' !in h && !IsSpace(h[0]) && !IsSpace(h[|h| - 1])
  }

  lemma OneToken(headers: map<string, string>, ts: seq<string>)
    requires PlainToken(AcceptHeader(headers))
    ensures AcceptsSpec(headers, ts) == FirstHit([AcceptHeader(headers)], ts, 0)
  {
    var h := AcceptHeader(headers);
    AbsentLead(h, "*/*");
    SplitWithout(h, ';');
    TrimPlain(h);
    assert TrimAll([h]) == [h];
  }

  /** A bare alias is answered with its full type even when only other types are offered. */
  lemma AliasBypassesOffer(headers: map<string, string>, ts: seq<string>)
    requires PlainToken(AcceptHeader(headers)) && AcceptHeader(headers) !in ts
    requires '/' !in AcceptHeader(headers) && Alias(AcceptHeader(headers)).Some?
    ensures AcceptsSpec(headers, ts) == Type(Alias(AcceptHeader(headers)).value)
  {
    OneToken(headers, ts);
  }

  /**
   * The header is split on `;` and not on `,`: a comma-separated list in
   * the form of section 5.3.2 of RFC 7231 is one token, which matches
   * nothing even when every member is offered.
   */
  lemma CommaListIsOneToken(headers: map<string, string>, a: string, b: string, ts: seq<string>)
    requires AcceptHeader(headers) == a + "," + b && PlainToken(a + "," + b)
    requires '/' in a && a in ts && b in ts && a + "," + b !in ts
    ensures AcceptsSpec(headers, ts) == NoMatch
  {
    OneToken(headers, ts);
    SlashKept(a, b);
    OneMiss(a + "," + b, ts);
  }

  /** A `/` in the first member is a `/` in the whole list. */
  lemma SlashKept(a: string, b: string)
    requires '/' in a
    ensures '/' in a + "," + b
  {
    var k :| 0 <= k < |a| && a[k] == '/';
    assert (a + "," + b)[k] == '/';
  }

  /** A lone token that is not offered and has a `/` selects nothing. */
  lemma OneMiss(t: string, ts: seq<string>)
    requires t !in ts && '/' in t
    ensures FirstHit([t], ts, 0) == NoMatch
  {
    assert Hit(t, ts) == None;
  }

  // ---------------------------------------------------------------------
  // acceptParser

  /** `Restiq.prototype.acceptable`: the media types the application offers. */
  const Acceptable: seq<string> := [
    "application/json",
    "text/plain",
    "application/octet-stream",
    "application/javascript",
    "application/x-www-form-urlencoded"
  ]

  /** The detail of the NotAcceptable error. */
  function OfferText(acceptable: seq<string>): string
  {
    "Server accepts: " + if acceptable == [] then "" else Join(acceptable, ',')
  }

  /**
   * `acceptParser()`'s middleware: a falsy answer from `accepts` (none, an
   * empty type, `false`) throws NotAcceptable and never calls `next`;
   * otherwise the type becomes the response's Content-Type and `next()`
   * runs.
   */
  function AcceptDecision(headers: map<string, string>, acceptable: seq<string>): (r: MwResult)
    ensures r == Next(None) || r == Threw(StatusText(406))
    ensures r == Next(None) <==> (AcceptsSpec(headers, acceptable).Type? && AcceptsSpec(headers, acceptable).t != "")
  {
    var a := AcceptsSpec(headers, acceptable);
    if a.Type? && a.t != "" then Next(None) else Threw(MintError(406, OfferText(acceptable)).message)
  }

  /** A request whose only token is a full type the application does not offer is refused. */
  lemma UnofferedTypeRefused(headers: map<string, string>, acceptable: seq<string>)
    requires PlainToken(AcceptHeader(headers)) && AcceptHeader(headers) !in acceptable
    requires '/' in AcceptHeader(headers)
    ensures AcceptDecision(headers, acceptable) == Threw("Not Acceptable")
  {
    OneToken(headers, acceptable);
  }

  /** `html` is let through as text/html, a type the application does not list. */
  lemma HtmlAliasAccepted()
    ensures AcceptsSpec(map["accept" := "html"], Acceptable) == Type("text/html")
    ensures AcceptDecision(map["accept" := "html"], Acceptable) == Next(None)
  {
    var headers := map["accept" := "html"];
    assert AcceptHeader(headers) == "html";
    assert PlainToken("html") by {}
    assert "html" !in Acceptable by {}
    AliasBypassesOffer(headers, Acceptable);
  }

  /**
   * `trim` strips all of JavaScript's white space, so a token that ends in
   * a no-break space is read as the bare token: `json` followed by U+00A0
   * selects application/json.
   */
  lemma NoBreakSpaceTrimmed()
    ensures AcceptsSpec(map["accept" := "json\U{A0}"], Acceptable) == Type("application/json")
  {
    var h := "json\U{A0}";
    var headers := map["accept" := h];
    assert AcceptHeader(headers) == h;
    assert '*' !in h;
    AbsentLead(h, "*/*");
    NoBreakSpaceTokens();
    JsonHit();
  }

  /** The token step of `NoBreakSpaceTrimmed`: one token, trimmed to `json`. */
  lemma NoBreakSpaceTokens()
    ensures TrimAll(Split("json\U{A0}", ';')) == ["json"]
  {
    SplitWithout("json\U{A0}", ';');
    NoBreakSpaceTrim();
  }

  /** The search step of `NoBreakSpaceTrimmed`: `json` is an alias of application/json. */
  lemma JsonHit()
    ensures FirstHit(["json"], Acceptable, 0) == Type("application/json")
  {
    assert "json" !in Acceptable by {}
    assert Hit("json", Acceptable) == Some("application/json");
  }

  /** The trim step of `NoBreakSpaceTrimmed`. */
  lemma NoBreakSpaceTrim()
    ensures Trim("json\U{A0}") == "json"
  {
    var h := "json\U{A0}";
    assert TrimStart(h) == h;
    assert h[..4] == "json";
    assert TrimEnd(h) == "json";
  }

  // ---------------------------------------------------------------------
  // the restify route verbs

  /** An argument of a route verb: the path (the first) or a handler. */
  datatype Argument = ArgPath(path: PathArg) | ArgFn(h: HandlerId)

  /** The push loop of `_addRestifyRoute`: every argument after the first, in order. */
  method ArgsAfterPath(argv: seq<Argument>) returns (handlers: seq<HandlerId>)
    requires forall i | 1 <= i < |argv| :: argv[i].ArgFn?
    ensures |handlers| == if argv == [] then 0 else |argv| - 1
    ensures forall j | 0 <= j < |handlers| :: handlers[j] == argv[j + 1].h
  {
    handlers := [];
    var i := 1;
    while i < |argv|
      invariant 1 <= i && (i <= |argv| || i == 1)
      invariant |handlers| == i - 1
      invariant forall j | 0 <= j < |handlers| :: j + 1 < |argv| && handlers[j] == argv[j + 1].h
    {
      handlers := handlers + [argv[i].h];
      i := i + 1;
    }
  }

  /** The method each restify verb registers under; `delete` is an alias of `del`. */
  function RestifyVerb(name: string): Option<string>
  {
    if name == "get" then Some("GET")
    else if name == "put" then Some("PUT")
    else if name == "post" then Some("POST")
    else if name == "del" || name == "delete" then Some("DELETE")
    else if name == "head" then Some("HEAD")
    else if name == "opts" then Some("OPTIONS")
    else if name == "patch" then Some("PATCH")
    else None
  }

  /** `head`, `opts` and `patch` register in the matcher for other methods under `METHOD::path`. */
  lemma ExtraVerbsAreOther(name: string, path: string)
    requires name == "head" || name == "opts" || name == "patch"
    ensures var v := RestifyVerb(name).value;
            && ToUpper(v) == v && v != "GET" && v != "POST"
            && RouteKey(v, path) == v + "::" + path
  {
    var v := RestifyVerb(name).value;
    assert ToUpper(v) == v;
  }

  /** `addRestifyErrorHandler`: the restify responder answers errors from now on. */
  method AddRestifyErrorHandler(app: App)
    requires app.Valid()
    modifies app
    ensures app.Valid() && app.errorMode == RestifyResponder && app.StageLists() == old(app.StageLists())
  {
    app.SetErrorHandler(RestifyResponder);
  }

  /**
   * `app.<verb>(path, fn, ...)`, that is `_addRestifyRoute(METHOD, path,
   * arguments)`: the route is added with every argument after the path as
   * its handlers, in order.
   */
  method AddRestifyRoute(app: App, name: string, path: PathArg, argv: seq<Argument>) returns (info: RouteRecord)
    requires RestifyVerb(name).Some? && app.Valid()
    requires forall i | 1 <= i < |argv| :: argv[i].ArgFn?
    modifies app.RouterFor(ToUpper(RestifyVerb(name).value))
    ensures app.Valid() && fresh(info)
    ensures info.name == RouteKey(ToUpper(RestifyVerb(name).value), PathOf(path)) && info.steps == |app.before|
    ensures info.stack == None
    ensures var q := app.RouterFor(ToUpper(RestifyVerb(name).value));
            Registered(info, old(q.literals), old(q.patterns), q.literals, q.patterns)
    ensures |info.handlers| == (if argv == [] then 0 else |argv| - 1)
    ensures forall j | 0 <= j < |info.handlers| :: info.handlers[j] == argv[j + 1].h
  {
    var handlers := ArgsAfterPath(argv);
    info := app.AddRoute(RestifyVerb(name).value, path, Many(handlers));
  }

  // ---------------------------------------------------------------------
  // bodyParser

  const DecodeErrorText: string := "error decoding body"

  /**
   * The callback `bodyParser()` wraps around `parseBody`: an error whose
   * message contains "error decoding body" becomes no error, and any other
   * error passes. A non-empty string has no `message`, so reading it throws.
   */
  function IgnoreDecodeError(err: Option<ErrValue>): MwResult
  {
    match err
    case None => Next(None)
    case Some(ErrObj(_, _, message, _)) => if Contains(message, DecodeErrorText) then Next(None) else Next(err)
    case Some(ErrText(text)) => if text == "" then Next(err) else Threw("Cannot read properties of undefined")
  }

  /** A pattern longer than the text does not occur in it. */
  lemma NotInShorter(s: string, p: string)
    requires |s| < |p|
    ensures !Contains(s, p)
  {
  }

  /** The reason phrases of the minted errors never contain the decoding-error text. */
  lemma ReasonPhrasesClean(code: int)
    ensures !Contains(StatusText(code), DecodeErrorText)
  {
    var s := StatusText(code);
    if |s| < |DecodeErrorText| {
      NotInShorter(s, DecodeErrorText);
    } else {
      assert s == "Internal Server Error";
      forall k | 0 <= k <= |s|
        ensures !OccursAt(s, DecodeErrorText, k)
      {
        if k + |DecodeErrorText| <= |s| {
          assert s[k..k + |DecodeErrorText|][0] == s[k];
        }
      }
    }
  }

  /** The filter lets every minted error through unchanged: their message is the reason phrase. */
  lemma MintedErrorsPass(code: int, detail: string)
    ensures IgnoreDecodeError(Some(MintError(code, detail))) == Next(Some(MintError(code, detail)))
  {
    ReasonPhrasesClean(code);
  }

  /** A decoding failure, had it reached the callback, would be silenced. */
  lemma DecodeErrorsDropped(statusCode: int, code: int, message: string, stack: string)
    requires Contains(message, DecodeErrorText)
    ensures IgnoreDecodeError(Some(ErrObj(statusCode, code, message, stack))) == Next(None)
  {
  }

  /**
   * `bodyParser()` without `mapParams`: `parseBody` with the filtering
   * callback. The only error `parseBody` passes on is the read failure,
   * which goes through unchanged.
   */
  method BodyParser(req: Request, s: Stream, decode: Decoder) returns (res: MwResult)
    modifies req`body, req`bodyEof
    ensures var (st, e) := ReadStep(BodyState(old(req.bodyEof), old(req.body)), s);
            var parsed := ParsedBody(ContentType(req.headers), st.body, decode);
            && req.bodyEof == st.latch && req.params == old(req.params)
            && (e.Some? ==> res == Next(e) && req.body == st.body)
            && (e.None? ==> (res.Threw? <==> parsed.None?))
            && (e.None? && parsed.None? ==> req.body == st.body)
            && (e.None? && parsed.Some? ==> res == Next(None) && req.body == parsed.value)
  {
    var r := ParseBody(req, s, decode);
    if r.Next? {
      MintedErrorsPass(500, "error reading request body");
      res := IgnoreDecodeError(r.err);
    } else {
      res := r;
    }
  }

  // ---------------------------------------------------------------------
  // res.send

  /** The JavaScript values `res.send` distinguishes. */
  datatype JsValue =
    | Undefined
    | Null
    | Bool(b: bool)
    | Number(n: int)
    | Str(s: string)
    | ErrorObject(statusCode: int, message: string, stack: string)
    | BufferObject(bytes: seq<bv8>)
    | PlainObject(fields: map<string, string>)

  /** `typeof v === 'object'`. */
  predicate IsObject(v: JsValue)
  {
    v.Null? || v.ErrorObject? || v.BufferObject? || v.PlainObject?
  }

  /** What `res.end` writes: text or the bytes of a buffer. */
  datatype Content = TextContent(text: string) | BytesContent(bytes: seq<bv8>)

  /** `content.length`: UTF-16 code units of text, bytes of a buffer. */
  function Length(c: Content): nat
  {
    match c
    case TextContent(t) => Utf16Length(t)
    case BytesContent(b) => |b|
  }

  /** A character above U+FFFF counts two in Content-Length. */
  lemma AstralLength()
    ensures Length(TextContent("\U{1F600}")) == 2
    ensures Length(TextContent("a\U{1F600}")) == 3
  {
    assert "a\U{1F600}"[1..] == "\U{1F600}";
  }

  function Digit(d: nat): char
    requires d < 10
  {
    "0123456789"[d]
  }

  function Digits(n: nat): string
  {
    if n < 10 then [Digit(n)] else Digits(n / 10) + [Digit(n % 10)]
  }

  /** The decimal text of an integer, as `String(n)` writes it. */
  function NumberText(n: int): string
  {
    if n < 0 then "-" + Digits(-n) else Digits(n)
  }

  /** `v + ""` for a value that is not an object. */
  function TextOf(v: JsValue): string
    requires !IsObject(v)
  {
    match v
    case Undefined => "undefined"
    case Bool(b) => if b then "true" else "false"
    case Number(n) => NumberText(n)
    case Str(s) => s
  }

  /** A thrown `Error` with a message and a stack, as `send` recognises it. */
  predicate IsError(v: JsValue)
  {
    v.ErrorObject? && v.message != "" && v.stack != ""
  }

  /** What `send` puts on the wire: the status, the Content-Type and the content. */
  datatype Outgoing = Outgoing(status: JsValue, contentType: string, content: Content)

  /** The argument shuffle of `send`: a missing body means `send(code)` or `send(body)`. */
  function SendArgs(statusCode: JsValue, body: JsValue): (JsValue, JsValue)
  {
    if !body.Undefined? then (statusCode, body)
    else if statusCode.Number? then (statusCode, Str(""))
    else (Number(200), statusCode)
  }

  /** The encoding choice and content of `send` for normalised arguments. */
  function EncodeBody(statusCode: JsValue, body: JsValue, stringify: JsValue -> string): Outgoing
  {
    if !IsObject(body) then Outgoing(statusCode, "text/plain", TextContent(TextOf(body)))
    else if IsError(body) then
      Outgoing(Number(if body.statusCode != 0 then body.statusCode else 500), "application/json", TextContent(stringify(body)))
    else if body.BufferObject? then Outgoing(statusCode, "application/octet-stream", BytesContent(body.bytes))
    else Outgoing(statusCode, "application/json", TextContent(stringify(body)))
  }

  function Encode(statusCode: JsValue, body: JsValue, stringify: JsValue -> string): Outgoing
  {
    var (s, b) := SendArgs(statusCode, body);
    EncodeBody(s, b, stringify)
  }

  /** No body is written for 204 and 304 and for a HEAD request. */
  predicate NoBody(status: JsValue, httpMethod: string)
  {
    status == Number(204) || status == Number(304) || httpMethod == "HEAD"
  }

  /** `send(code)` with a numeric status sends an empty text body with that status. */
  lemma StatusOnlySendsEmpty(n: int, stringify: JsValue -> string)
    ensures Encode(Number(n), Undefined, stringify) == Outgoing(Number(n), "text/plain", TextContent(""))
  {
  }

  /** `send(body)` with a non-numeric first argument is `send(200, body)`. */
  lemma OneArgumentIsBody(v: JsValue, stringify: JsValue -> string)
    requires !v.Number? && !v.Undefined?
    ensures Encode(v, Undefined, stringify) == Encode(Number(200), v, stringify)
  {
  }

  /** Every value that is not an object goes out as its text, as text/plain, with its status. */
  lemma NonObjectIsText(status: JsValue, v: JsValue, stringify: JsValue -> string)
    requires !IsObject(v) && !v.Undefined?
    ensures Encode(status, v, stringify) == Outgoing(status, "text/plain", TextContent(TextOf(v)))
  {
  }

  /** A string body is sent verbatim. */
  lemma StringSentVerbatim(status: JsValue, s: string, stringify: JsValue -> string)
    ensures Encode(status, Str(s), stringify).content == TextContent(s)
    ensures Length(Encode(status, Str(s), stringify).content) == Utf16Length(s)
  {
  }

  /** An `Error` is JSON, and its own status code replaces the argument's, 500 when it has none. */
  lemma ErrorIsJson(status: JsValue, e: JsValue, stringify: JsValue -> string)
    requires IsError(e)
    ensures var o := Encode(status, e, stringify);
            && o.contentType == "application/json" && o.content == TextContent(stringify(e))
            && o.status == Number(if e.statusCode != 0 then e.statusCode else 500)
  {
  }

  /** A buffer goes out as its bytes, as an octet stream, with the status it was given. */
  lemma BufferIsOctets(status: JsValue, bytes: seq<bv8>, stringify: JsValue -> string)
    ensures Encode(status, BufferObject(bytes), stringify)
            == Outgoing(status, "application/octet-stream", BytesContent(bytes))
  {
  }

  /** Any other object, `null` and an `Error` without message or stack, is JSON with the status given. */
  lemma OtherObjectIsJson(status: JsValue, v: JsValue, stringify: JsValue -> string)
    requires IsObject(v) && !IsError(v) && !v.BufferObject?
    ensures Encode(status, v, stringify) == Outgoing(status, "application/json", TextContent(stringify(v)))
  {
  }

  /** The response as `send` leaves it. */
  class Response {
    var statusCode: JsValue
    var headers: map<string, string>
    /** `res._body`: the content `send` produced. */
    var sentBody: Option<Content>
    /** What `end` wrote, `None` when it was called with nothing. */
    var written: Option<Content>
    var ended: bool

    constructor ()
      ensures statusCode == Number(200) && headers == map[] && sentBody == None && written == None && !ended
    {
      statusCode := Number(200);
      headers := map[];
      sentBody := None;
      written := None;
      ended := false;
    }

    /**
     * `res.send(statusCode, body)`: the arguments are normalised, the
     * encoding is chosen from the body, the content and Content-Type and
     * Content-Length headers are set, and the response ends, with the
     * content unless the status is 204 or 304 or the request is HEAD.
     */
    method Send(req: Request, statusArg: JsValue, bodyArg: JsValue, stringify: JsValue -> string)
      modifies this
      ensures var o := Encode(statusArg, bodyArg, stringify);
              && statusCode == o.status && sentBody == Some(o.content) && ended
              && headers == old(headers)["Content-Type" := o.contentType]["Content-Length" := NumberText(Length(o.content))]
              && written == (if NoBody(o.status, req.httpMethod) then None else Some(o.content))
    {
      var status, body := NormaliseArgs(statusArg, bodyArg);
      var o := EncodeArgs(status, body, stringify);
      assert o == Encode(statusArg, bodyArg, stringify);
      Emit(o, req.httpMethod);
    }

    /**
     * The end of `send`: `_body`, the status, Content-Type and
     * Content-Length are set, and the response ends, with the content
     * unless the status is 204 or 304 or the request is HEAD.
     */
    method Emit(o: Outgoing, httpMethod: string)
      modifies this
      ensures statusCode == o.status && sentBody == Some(o.content) && ended
      ensures headers == old(headers)["Content-Type" := o.contentType]["Content-Length" := NumberText(Length(o.content))]
      ensures written == (if NoBody(o.status, httpMethod) then None else Some(o.content))
    {
      sentBody := Some(o.content);
      statusCode := o.status;
      headers := headers["Content-Type" := o.contentType];
      headers := headers["Content-Length" := NumberText(Length(o.content))];
      if o.status == Number(204) || o.status == Number(304) || httpMethod == "HEAD" {
        written := None;
      } else {
        written := Some(o.content);
      }
      ended := true;
    }
  }

  /** The argument shuffle at the top of `send`. */
  method NormaliseArgs(statusArg: JsValue, bodyArg: JsValue) returns (status: JsValue, body: JsValue)
    ensures (status, body) == SendArgs(statusArg, bodyArg)
  {
    status := statusArg;
    body := bodyArg;
    if body.Undefined? {
      if status.Number? {
        body := Str("");
      } else {
        body := status;
        status := Number(200);
      }
    }
  }

  /** The encoding choice of `send`, then the content in that encoding. */
  method EncodeArgs(statusArg: JsValue, body: JsValue, stringify: JsValue -> string) returns (o: Outgoing)
    ensures o == EncodeBody(statusArg, body, stringify)
  {
    var status := statusArg;
    var encoding;
    if !IsObject(body) {
      encoding := "text/plain";
    } else if !body.Null? {
      if body.ErrorObject? && body.message != "" && body.stack != "" {
        status := Number(if body.statusCode != 0 then body.statusCode else 500);
        encoding := "application/json";
      } else if body.BufferObject? {
        encoding := "application/octet-stream";
      } else {
        encoding := "application/json";
      }
    } else {
      encoding := "application/json";
    }
    var content;
    if encoding == "application/json" {
      content := TextContent(stringify(body));
    } else if encoding == "application/octet-stream" {
      content := BytesContent(body.bytes);
    } else {
      content := TextContent(TextOf(body));
    }
    return Outgoing(status, encoding, content);
  }

  /**
   * `acceptParser()`'s middleware on a request and its response: the
   * chosen type becomes the Content-Type; a falsy choice throws
   * NotAcceptable, without calling `next` and without touching the response.
   */
  method AcceptParser(req: Request, res: Response, acceptable: seq<string>) returns (r: MwResult)
    modifies res`headers
    ensures r == AcceptDecision(req.headers, acceptable)
    ensures r.Next? ==> res.headers == old(res.headers)["Content-Type" := AcceptsSpec(req.headers, acceptable).t]
    ensures r.Threw? ==> res.headers == old(res.headers)
  {
    var contentType := Accepts(req, TypeList(acceptable));
    if !contentType.Type? || contentType.t == "" {
      return Threw(MintError(406, OfferText(acceptable)).message);
    }
    res.headers := res.headers["Content-Type" := contentType.t];
    return Next(None);
  }
}
