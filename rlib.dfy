/**
 * The request helpers of lib/rlib.js: merging route, query and body
 * parameters into `req.params`, the `_bodyEof` latch that lets only one
 * reader consume the body, content-type sniffing for `parseBody`, and Basic
 * credentials for `parseAuthorization`.
 *
 * The decoders (`JSON.parse`, `http_parse_query`, `Buffer`) are foreign:
 * a decoder is a parameter mapping a content type and a text to the
 * decoded fields, or to `None` when it throws. The body stream is a
 * parameter too: the chunks it delivers before `end`, or an `error` event.
 */
module RLib {
  import opened Common
  import opened JsStrings

  /** `req.body`: text as read, `undefined`, or the object a decoder produced. */
  datatype Body = BodyText(text: string) | BodyUndefined | BodyFields(fields: map<string, string>)

  /** `req._bodyEof`: `undefined`, `false` while a reader runs, `true` once the body is in. */
  datatype Latch = Unset | Reading | Done

  datatype Credentials = Credentials(username: string, password: string)

  /** A decoder table entry applied to a text: the decoded fields, or `None` if it throws. */
  type Decoder = (string, string) -> Option<map<string, string>>

  /** How a middleware function ends: it calls `next(err)`, it throws, or it recurses without end. */
  datatype MwResult = Next(err: Option<ErrValue>) | Threw(message: string) | Overflow

  /** What the request stream does once a reader is attached. */
  datatype Stream = Ended(chunks: seq<string>) | Failed

  class Request {
    var httpMethod: string
    var url: string
    var headers: map<string, string>
    var params: map<string, string>
    var body: Body
    var bodyEof: Latch
    var username: Option<string>
    var authorization: Option<Credentials>

    /** A request as it arrives: the prototype defaults of lib/restiq.js. */
    constructor (httpMethod: string, url: string, headers: map<string, string>)
      ensures this.httpMethod == httpMethod && this.url == url && this.headers == headers
      ensures params == map[] && body == BodyText("") && bodyEof == Unset
      ensures username == None && authorization == None
    {
      this.httpMethod := httpMethod;
      this.url := url;
      this.headers := headers;
      params := map[];
      body := BodyText("");
      bodyEof := Unset;
      username := None;
      authorization := None;
    }
  }

  // ---------------------------------------------------------------------
  // parameter merging

  /**
   * `for (i in ps) params[i] = ps[i]`: every key of `ps` is written, so
   * its values win; all other keys of `params` are kept.
   */
  method MergeInto(params: map<string, string>, ps: map<string, string>) returns (r: map<string, string>)
    ensures r.Keys == params.Keys + ps.Keys
    ensures forall k | k in ps :: r[k] == ps[k]
    ensures forall k | k in params && k !in ps :: r[k] == params[k]
  {
    r := params;
    var todo := ps.Keys;
    while todo != {}
      invariant todo <= ps.Keys
      invariant r.Keys == params.Keys + (ps.Keys - todo)
      invariant forall k | k in ps && k !in todo :: r[k] == ps[k]
      invariant forall k | k in params && k !in ps :: r[k] == params[k]
      invariant forall k | k in params && k in todo :: r[k] == params[k]
      decreases todo
    {
      var k :| k in todo;
      r := r[k := ps[k]];
      todo := todo - {k};
    }
  }

  /** `parseRouteParams`: the route's captured variables are copied into `req.params`. */
  method ParseRouteParams(req: Request, vars: map<string, string>) returns (res: MwResult)
    modifies req`params
    ensures req.params == old(req.params) + vars
    ensures res == Next(None)
  {
    var merged := MergeInto(req.params, vars);
    req.params := merged;
    return Next(None);
  }

  /** The content types `paramDecoders` has an entry for. */
  predicate KnownType(t: string)
  {
    t == "application/json" || t == "text/plain" || t == "application/octet-stream"
    || t == "base64" || t == "application/x-www-form-urlencoded"
  }

  const FormType: string := "application/x-www-form-urlencoded"

  /** `decodeBody`'s outcome: no decoder (returns `undefined`), the decoder threw, or the filled params. */
  datatype Decoded = NoDecoder | DecodeThrew | DecodedInto(params: map<string, string>)

  /**
   * `decodeBody(type, str, params)`: an unknown type leaves `params` alone;
   * otherwise the decoder's fields are written into `params`.
   */
  function DecodeSpec(t: string, s: string, params: map<string, string>, decode: Decoder): (r: Decoded)
    ensures !KnownType(t) <==> r.NoDecoder?
    ensures r.DecodedInto? ==> decode(t, s).Some? && r.params.Keys == params.Keys + decode(t, s).value.Keys
    ensures r.DecodedInto? ==> forall k | k in decode(t, s).value :: r.params[k] == decode(t, s).value[k]
    ensures r.DecodedInto? ==> forall k | k in params && k !in decode(t, s).value :: r.params[k] == params[k]
  {
    if !KnownType(t) then NoDecoder
    else match decode(t, s)
      case None => DecodeThrew
      case Some(ps) => DecodedInto(params + ps)
  }

  method DecodeBody(t: string, s: string, params: map<string, string>, decode: Decoder) returns (r: Decoded)
    ensures r == DecodeSpec(t, s, params, decode)
  {
    if !KnownType(t) {
      return NoDecoder;
    }
    var ps := decode(t, s);
    if ps.None? {
      return DecodeThrew;
    }
    var merged := MergeInto(params, ps.value);
    assert merged == params + ps.value;
    return DecodedInto(merged);
  }

  // ---------------------------------------------------------------------
  // query parameters

  /**
   * The text `parseQueryParams` decodes: from after the first `?` up to
   * the first `#` (anywhere in the URL) or the end; `None` with no `?`.
   */
  function QuerySlice(url: string): (r: Option<string>)
    ensures r.None? <==> '?' !in url
    ensures r.Some? ==> '?' !in url[..IndexOfChar(url, '?')] && '#' !in r.value
    ensures r.Some? && '#' !in url ==> r.value == url[IndexOfChar(url, '?') + 1..]
  {
    var qmark := IndexOfChar(url, '?');
    if qmark < 0 then None
    else
      var h := IndexOfChar(url, '#');
      var hmark := if h < 0 then |url| else h;
      Some(JsSlice(url, qmark + 1, hmark))
  }

  /** With a `#` after the `?`, the query is exactly the text between them. */
  lemma QueryBetweenMarks(url: string, q: nat, h: nat)
    requires q < h < |url| && url[q] == '?' && url[h] == '#'
    requires '?' !in url[..q] && '#' !in url[..h]
    ensures QuerySlice(url) == Some(url[q + 1..h])
  {
  }

  /**
   * `parseQueryParams`: the query slice is decoded as a form into
   * `req.params`; a decoder failure becomes a 400 error; no `?` means no
   * change and no error.
   */
  method ParseQueryParams(req: Request, decode: Decoder) returns (res: MwResult)
    modifies req`params
    ensures QuerySlice(old(req.url)).None? ==> res == Next(None) && req.params == old(req.params)
    ensures QuerySlice(old(req.url)).Some? ==>
              match DecodeSpec(FormType, QuerySlice(old(req.url)).value, old(req.params), decode)
              case DecodedInto(p) => req.params == p && res == Next(None)
              case _ => req.params == old(req.params) && res == Next(Some(MintError(400, "error decoding query params")))
    ensures req.url == old(req.url) && req.body == old(req.body) && req.bodyEof == old(req.bodyEof)
  {
    var qmark := IndexOfChar(req.url, '?');
    if qmark >= 0 {
      var hmark := IndexOfChar(req.url, '#');
      if hmark < 0 {
        hmark := |req.url|;
      }
      assert JsSlice(req.url, qmark + 1, hmark) == QuerySlice(req.url).value;
      var d := DecodeBody(FormType, JsSlice(req.url, qmark + 1, hmark), req.params, decode);
      if d.DecodedInto? {
        req.params := d.params;
      } else {
        return Next(Some(MintError(400, "error decoding query params")));
      }
    }
    return Next(None);
  }

  // ---------------------------------------------------------------------
  // the body latch

  /** The part of a request the latch governs. */
  datatype BodyState = BodyState(latch: Latch, body: Body)

  /**
   * `readBody` on a request whose stream does `s`: a latch that is already
   * set means another reader owns the body, and `next()` runs at once with
   * nothing changed; otherwise the latch goes to `false`, and on `end` to
   * `true` with the chunks joined in arrival order as the body, while an
   * `error` leaves it at `false` and passes a 500 error.
   */
  function ReadStep(st: BodyState, s: Stream): (r: (BodyState, Option<ErrValue>))
    ensures st.latch != Unset ==> r == (st, None)
    ensures st.latch == Unset && s.Ended? ==> r.0 == BodyState(Done, BodyText(Concat(s.chunks))) && r.1 == None
    ensures st.latch == Unset && s.Failed? ==> r.0 == BodyState(Reading, st.body) && r.1 == Some(MintError(500, "error reading request body"))
    ensures r.0.latch != Unset
  {
    if st.latch != Unset then (st, None)
    else match s
      case Ended(chunks) => (BodyState(Done, BodyText(Concat(chunks))), None)
      case Failed => (BodyState(Reading, st.body), Some(MintError(500, "error reading request body")))
  }

  /** Only one reader runs: once a read has begun, any later read changes nothing. */
  lemma ReadOnce(st: BodyState, s1: Stream, s2: Stream)
    ensures ReadStep(ReadStep(st, s1).0, s2) == (ReadStep(st, s1).0, None)
  {
  }

  /** Chunks arriving one after another extend the body in arrival order. */
  lemma {:induction false} ChunksInOrder(chunks: seq<string>, c: string)
    ensures ReadStep(BodyState(Unset, BodyText("")), Ended(chunks + [c])).0.body.text
            == ReadStep(BodyState(Unset, BodyText("")), Ended(chunks)).0.body.text + c
  {
    ConcatAppend(chunks, c);
  }

  /** `readBody` against the stream's behaviour. */
  method ReadBody(req: Request, s: Stream) returns (res: MwResult)
    modifies req`body, req`bodyEof
    ensures res.Next?
    ensures (BodyState(req.bodyEof, req.body), res.err) == ReadStep(BodyState(old(req.bodyEof), old(req.body)), s)
    ensures req.params == old(req.params) && req.url == old(req.url) && req.headers == old(req.headers)
  {
    if req.bodyEof != Unset {
      return Next(None);
    }
    req.bodyEof := Reading;
    match s
    case Ended(chunks) =>
      req.bodyEof := Done;
      req.body := BodyText(Concat(chunks));
      return Next(None);
    case Failed =>
      return Next(Some(MintError(500, "error reading request body")));
  }

  /** `skipBody`: the body is declared empty and fully read. */
  method SkipBody(req: Request) returns (res: MwResult)
    modifies req`body, req`bodyEof
    ensures req.body == BodyText("") && req.bodyEof == Done && res == Next(None)
    ensures req.params == old(req.params) && req.url == old(req.url) && req.headers == old(req.headers)
  {
    req.body := BodyText("");
    req.bodyEof := Done;
    return Next(None);
  }

  // ---------------------------------------------------------------------
  // content-type sniffing

  /** `[0-9a-fA-F+\r\n/]`, the first character class of the base64 test. */
  predicate HexClass(c: char)
  {
    ('0' <= c <= '9') || ('a' <= c <= 'f') || ('A' <= c <= 'F') || c == '+' || c == '\r' || c == '\n' || c == '/'
  }

  /** `[=\r\n]`, the padding class. */
  predicate PadClass(c: char)
  {
    c == '=' || c == '\r' || c == '\n'
  }

  /** Length of the longest prefix made of `HexClass` characters. */
  function HexRun(s: string): (n: nat)
    ensures n <= |s| && (forall i :: 0 <= i < n ==> HexClass(s[i]))
    ensures n < |s| ==> !HexClass(s[n])
  {
    if s == [] || !HexClass(s[0]) then 0 else 1 + HexRun(s[1..])
  }

  /** `s.match(/^[0-9a-fA-F+\r\n/]*[=\r\n]*$/)`, decided greedily. */
  predicate LooksBase64(s: string)
  {
    forall i :: HexRun(s) <= i < |s| ==> PadClass(s[i])
  }

  /** `s` splits at `k` into a hex part and a padding part. */
  predicate SplitsAt(s: string, k: nat)
  {
    k <= |s| && (forall i :: 0 <= i < k ==> HexClass(s[i])) && (forall i :: k <= i < |s| ==> PadClass(s[i]))
  }

  /** The greedy test agrees with the pattern: some split into a hex part and a padding part. */
  lemma LooksBase64Meaning(s: string)
    ensures LooksBase64(s) <==> exists k :: SplitsAt(s, k)
  {
    var n := HexRun(s);
    if LooksBase64(s) {
      assert SplitsAt(s, n);
    }
    if exists k :: SplitsAt(s, k) {
      var k :| SplitsAt(s, k);
    }
  }

  /** The number of leading characters the base64 test looks at. */
  const SniffLimit: nat := 10000

  /**
   * The type `parseBody` decodes with: the content-type header when it
   * is non-empty, else a guess from the body: `{` is JSON, `[` is an octet
   * stream, text whose first 10000 characters pass the base64 test is
   * base64, anything else plain text. A body that is not text has no
   * first character and no length, so it counts as plain text, and an
   * `undefined` body makes the guess throw.
   */
  function SniffType(contentType: string, body: Body): (r: Option<string>)
    ensures contentType != "" ==> r == Some(contentType)
    ensures contentType == "" && body.BodyUndefined? ==> r.None?
    ensures contentType == "" && body.BodyFields? ==> r == Some("text/plain")
    ensures contentType == "" && body.BodyText? && body.text != [] && body.text[0] == '{' ==> r == Some("application/json")
    ensures contentType == "" && body.BodyText? && body.text != [] && body.text[0] == '[' ==> r == Some("application/octet-stream")
    ensures contentType == "" && body.BodyText? && (body.text == [] || body.text[0] !in "{[") ==>
              r == Some(if LooksBase64(if |body.text| <= SniffLimit then body.text else body.text[..SniffLimit]) then "base64" else "text/plain")
  {
    if contentType != "" then Some(contentType)
    else match body
      case BodyUndefined => None
      case BodyFields(_) => Some("text/plain")
      case BodyText(s) =>
        if s != [] && s[0] == '{' then Some("application/json")
        else if s != [] && s[0] == '[' then Some("application/octet-stream")
        else if |s| <= SniffLimit && LooksBase64(s) then Some("base64")
        else if |s| > SniffLimit && LooksBase64(s[..SniffLimit]) then Some("base64")
        else Some("text/plain")
  }

  /** An empty body with no content type is taken for base64. */
  lemma EmptyBodyIsBase64()
    ensures SniffType("", BodyText("")) == Some("base64")
  {
    assert LooksBase64("");
  }

  /** The header's content type, "" standing for a missing or empty header. */
  function ContentType(headers: map<string, string>): string
  {
    if "content-type" in headers then headers["content-type"] else ""
  }

  /**
   * What `parseBody` leaves in `req.body` once the read succeeded: `None`
   * when guessing the type throws (an `undefined` body); plain text is
   * kept; a type no decoder knows makes the body `undefined`; otherwise a
   * text body is replaced by the decoded object, or kept when the decoder
   * throws, and a body that is not text is kept.
   */
  function ParsedBody(contentType: string, body: Body, decode: Decoder): (r: Option<Body>)
    ensures r.None? <==> SniffType(contentType, body).None?
  {
    match SniffType(contentType, body)
    case None => None
    case Some(t) =>
      if t == "text/plain" then Some(body)
      else if !KnownType(t) then Some(BodyUndefined)
      else if !body.BodyText? then Some(body)
      else match DecodeSpec(t, body.text, map[], decode)
        case NoDecoder => Some(BodyUndefined)
        case DecodeThrew => Some(body)
        case DecodedInto(p) => Some(BodyFields(p))
  }

  /**
   * `parseBody`: read the body, then decode it with the sniffed type unless
   * that is plain text, as `ParsedBody` says; a decoder failure is dropped,
   * and a read failure is passed on.
   */
  method ParseBody(req: Request, s: Stream, decode: Decoder) returns (res: MwResult)
    modifies req`body, req`bodyEof
    ensures var (st, e) := ReadStep(BodyState(old(req.bodyEof), old(req.body)), s);
            var parsed := ParsedBody(ContentType(req.headers), st.body, decode);
            && req.bodyEof == st.latch
            && (e.Some? ==> res == Next(e) && req.body == st.body)
            && (e.None? && parsed.None? ==> res.Threw? && req.body == st.body)
            && (e.None? && parsed.Some? ==> res == Next(None) && req.body == parsed.value)
    ensures req.params == old(req.params) && req.headers == old(req.headers) && req.url == old(req.url)
  {
    var r := ReadBody(req, s);
    if r.err.Some? {
      return r;
    }
    var t := SniffType(ContentType(req.headers), req.body);
    if t.None? {
      return Threw("cannot read property of undefined");
    }
    if t.value != "text/plain" {
      if !KnownType(t.value) {
        req.body := BodyUndefined;
      } else if req.body.BodyText? {
        var d := DecodeBody(t.value, req.body.text, map[], decode);
        if d.DecodedInto? {
          req.body := BodyFields(d.params);
        }
      }
    }
    return Next(None);
  }

  /**
   * `parseBodyParams`: a latch still unset makes it read the body first and
   * retry; a latch left at `false` makes the retry call itself again and
   * again (`Overflow`); once the body is in, it is decoded into
   * `req.params` with the content type, plain text by default. A type no
   * decoder knows decodes nothing and is no error.
   */
  method ParseBodyParams(req: Request, s: Stream, decode: Decoder) returns (res: MwResult)
    modifies req`body, req`bodyEof, req`params
    ensures var (st, e) := ReadStep(BodyState(old(req.bodyEof), old(req.body)), s);
            && req.bodyEof == st.latch && req.body == st.body
            && (e.Some? ==> res == Next(e) && req.params == old(req.params))
            && (e.None? && st.latch == Reading ==> res == Overflow && req.params == old(req.params))
            && (e.None? && st.latch == Done ==>
                  var t := if ContentType(req.headers) != "" then ContentType(req.headers) else "text/plain";
                  match (if !KnownType(t) then NoDecoder
                         else if st.body.BodyText? then DecodeSpec(t, st.body.text, old(req.params), decode)
                         else DecodeThrew)
                  case DecodedInto(p) => req.params == p && res == Next(None)
                  case NoDecoder => req.params == old(req.params) && res == Next(None)
                  case DecodeThrew => req.params == old(req.params) && res == Next(Some(MintError(400, "error decoding body params"))))
    ensures req.headers == old(req.headers) && req.url == old(req.url)
  {
    if req.bodyEof == Unset {
      var r := ReadBody(req, s);
      if r.err.Some? {
        return r;
      }
    }
    if req.bodyEof == Reading {
      return Overflow;
    }
    var t := if ContentType(req.headers) != "" then ContentType(req.headers) else "text/plain";
    var d := NoDecoder;
    if KnownType(t) {
      d := DecodeThrew;
      if req.body.BodyText? {
        d := DecodeBody(t, req.body.text, req.params, decode);
      }
    }
    if d.DecodedInto? {
      req.params := d.params;
    } else if d.DecodeThrew? {
      return Next(Some(MintError(400, "error decoding body params")));
    }
    return Next(None);
  }

  // ---------------------------------------------------------------------
  // Basic credentials

  /** The index of the first `:` in the decoded credentials, or their length. */
  function ColonAt(s: string): (i: nat)
    ensures i <= |s| && ':' !in s[..i]
    ensures i < |s| ==> s[i] == ':'
  {
    var k := IndexOfChar(s, ':');
    if k < 0 then |s| else k
  }

  /** The scan loop that looks for the colon byte. */
  method ColonIndex(s: string) returns (i: nat)
    ensures i == ColonAt(s)
  {
    i := 0;
    while i < |s|
      invariant i <= |s| && ':' !in s[..i]
    {
      if s[i] == ':' {
        break;
      }
      assert s[..i + 1] == s[..i] + [s[i]];
      i := i + 1;
    }
  }

  /**
   * The user-id and password of section 2 of RFC 7617: split at the first
   * colon; with no colon the whole text is the user-id and the password
   * is empty.
   */
  function SplitCredentials(decoded: string): (c: Credentials)
    ensures ':' !in c.username
    ensures ':' in decoded ==> decoded == c.username + ":" + c.password
    ensures ':' !in decoded ==> c.username == decoded && c.password == ""
  {
    var i := ColonAt(decoded);
    var c := Credentials(decoded[..i], JsSliceFrom(decoded, i + 1));
    if i < |decoded| then
      assert decoded == decoded[..i] + ":" + decoded[i + 1..];
      c
    else
      assert decoded[..i] == decoded;
      c
  }

  /** Joining user-id and password with a colon and splitting again gives them back. */
  lemma CredentialsRoundTrip(user: string, pass: string)
    requires ':' !in user
    ensures SplitCredentials(user + ":" + pass) == Credentials(user, pass)
  {
    var s := user + ":" + pass;
    assert s[|user|] == ':';
    assert s[..|user|] == user;
  }

  /**
   * The scheme test of `parseAuthorization` as written (lib/rlib.js:171):
   * `parts.toLowerCase` is a property of an array and is `undefined`, so
   * any scheme other than the exact "Basic" throws (`None`).
   */
  function BasicSchemeAsWritten(scheme: string): (r: Option<bool>)
    ensures r == Some(true) <==> scheme == "Basic"
    ensures r.None? <==> scheme != "Basic"
  {
    if scheme == "Basic" then Some(true) else None
  }

  /** The evidently intended test: the scheme compared with "basic" regardless of case. */
  function BasicScheme(scheme: string): (r: bool)
    ensures r <==> ToLower(scheme) == "basic"
  {
    scheme == "Basic" || ToLower(scheme) == "basic"
  }

  /** "basic", and every other scheme than "Basic", throws as written but not as intended. */
  lemma LowerCaseSchemeThrows()
    ensures BasicSchemeAsWritten("basic").None? && BasicScheme("basic")
    ensures BasicSchemeAsWritten("Bearer").None? && !BasicScheme("Bearer")
  {
    assert ToLower("basic") == "basic";
    assert ToLower("Bearer")[0] == 'b' && ToLower("Bearer")[1] == 'e';
  }

  /** The corrected test accepts "Basic" in any letter case. */
  lemma BasicAnyCase(scheme: string)
    requires |scheme| == 5 && LowerChar(scheme[0]) == 'b' && LowerChar(scheme[1]) == 'a'
    requires LowerChar(scheme[2]) == 's' && LowerChar(scheme[3]) == 'i' && LowerChar(scheme[4]) == 'c'
    ensures BasicScheme(scheme)
  {
    assert ToLower(scheme) == "basic";
  }

  /**
   * `parseAuthorization` with the corrected scheme test: a Basic header's
   * second word is base64-decoded (`base64` is the foreign decoder, the
   * result taken byte for character) and split into user-id and password;
   * a missing header changes nothing. A Basic header without a second
   * word makes `new Buffer(undefined)` throw.
   */
  method ParseAuthorization(req: Request, base64: string -> string) returns (res: MwResult)
    modifies req`username, req`authorization
    ensures var auth := if "authorization" in old(req.headers) then old(req.headers)["authorization"] else "";
            var parts := Split(auth, ' ');
            && (auth == "" || !BasicScheme(parts[0]) ==>
                  res == Next(None) && req.username == old(req.username) && req.authorization == old(req.authorization))
            && (auth != "" && BasicScheme(parts[0]) && |parts| < 2 ==>
                  res.Threw? && req.username == old(req.username) && req.authorization == old(req.authorization))
            && (auth != "" && BasicScheme(parts[0]) && |parts| >= 2 ==>
                  res == Next(None)
                  && req.authorization == Some(SplitCredentials(base64(parts[1])))
                  && req.username == Some(SplitCredentials(base64(parts[1])).username))
    ensures req.params == old(req.params) && req.headers == old(req.headers) && req.body == old(req.body)
    ensures req.bodyEof == old(req.bodyEof) && req.url == old(req.url)
  {
    var auth := if "authorization" in req.headers then req.headers["authorization"] else "";
    if auth == "" {
      return Next(None);
    }
    var parts := Split(auth, ' ');
    if BasicScheme(parts[0]) {
      if |parts| < 2 {
        return Threw("first argument must be a string");
      }
      var nameval := base64(parts[1]);
      var i := ColonIndex(nameval);
      var user := nameval[..i];
      var pass := JsSliceFrom(nameval, i + 1);
      req.username := Some(user);
      req.authorization := Some(Credentials(user, pass));
    }
    return Next(None);
  }
}
