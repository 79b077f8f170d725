# restiq in Dafny

A model of the request-handling core of restiq, a small REST server library
for Node.js, with the properties it promises proved about the model. The
model covers:

- **the route matcher** (`lib/qroute.js`): a literal table for routes without
  `/:`, and an ordered list of compiled templates for routes with `/:name`
  segments. Lookup splits off the query, tries the literal table, then takes
  the first matching template in registration order;
- **the application** (`lib/restiq.js`): the four stage lists (setup, use,
  after, finally) and `addStep`; the three matchers (GET, POST, and all other
  methods under `METHOD::path`); `addRoute` with its frozen `steps` count;
  `mapRoute`; `concatArrays`; the once-built, cached composed stack;
  `runMiddlewareStack`; the dispatch closure; `finishMiddlewareStack`; and
  `_endWithError`;
- **the middleware library** (`lib/rlib.js`): route, query and body
  parameters merged into `req.params`; the `_bodyEof` latch of
  `readBody`/`skipBody`; content-type sniffing; and Basic authorization
  parsing;
- **the restify shims** (`lib/qrestify.js`): `req.accepts` and
  `acceptParser`, the restify route verbs, the `bodyParser` error filter,
  `res.send`, and the restify error responder.

Handlers are abstract identities. A `behave` function says what each one
passes to its continuation: `next()`, `next(false)`, or `next(err)`.
Dispatch is modelled synchronously as a trace of the handlers it ran, the
calls it made to the error responder, the reply written, and the responder
the application has installed (restify mode's emulation handler installs the
restify responder when it runs). JavaScript regular expressions are replaced
by a direct matcher over a token list (`Lit(text)` / `Cap(name)`). The
pattern text that `_buildCapturingRegex` builds is produced from the same
tokens, and the template is recovered from them; the matcher itself is
specified by filling the template, not by executing the pattern text.

Modules, one per file: `Common`, `JsStrings` (JavaScript string operations),
`QRoute`, `Pipeline` (the continuation-passing part of `lib/restiq.js`),
`RLib`, `Restiq`, `QRestify`.

Where the code and its documentation disagree, the model follows the code:

- `mapRoute` results carry a back-reference to the stored record, and the
  record holds the `steps` count and the cached stack. `lib/restiq.js`
  (lines 125-142 and 286) and `test/test-qroute.js:11-16` rely on this,
  although `lib/qroute.js` as shown returns nothing from `addRoute` and
  records no `_route`.
- The minted error classes of `lib/errors.js` keep the status code and
  Node's reason phrase, and ignore their constructor argument. So
  "error decoding …" details never reach an error's message.

## Model

| member | source | states |
|---|---|---|
| QRoute.RegexEscape | lib/qroute.js:88-101 | the escaped text is the input's length plus one per metacharacter |
| QRoute.EscapeParses | lib/qroute.js:88-101 | removing the inserted backslashes gives back exactly the input |
| QRoute.EscapePlain | lib/qroute.js:88-101 | text without metacharacters is left unchanged |
| QRoute.CapMarkIsIndexOf | lib/qroute.js:20 | the capture-segment search finds the first `/:`, as `indexOf("/:")` does |
| QRoute.SegmentEnd | lib/qroute.js:73 | a capture name runs up to the next `/` and contains none |
| QRoute.TemplateRoundTrip | lib/qroute.js:70-83 | the compiled token list spells out the template it came from |
| QRoute.CompileStep | lib/qroute.js:73-78 | one loop step: the literal before the first `/:`, then a capture up to the next `/`, then the rest |
| QRoute.BuildCapturingRegex | lib/qroute.js:70-83 | the loop builds the pattern text of the compiled tokens and the names collected left to right |
| QRoute.PatternShape | lib/qroute.js:72-81 | the pattern text starts with `^` and ends with `([/?].*)?$` |
| QRoute.GroupPerName | lib/qroute.js:72-82 | the pattern text has `|names| + 1` capturing groups: one per name in the body, then the trailer's |
| QRoute.BodyGroups | lib/qroute.js:73-79 | each `\/([^/]*)` adds one group and each escaped literal none |
| QRoute.EscapedGroups | lib/qroute.js:88-101 | an escaped literal opens no capturing group |
| QRoute.TailGroups | lib/qroute.js:81 | the trailer is one group |
| QRoute.CompileHasCapture | lib/qroute.js:20-25 | a name with `/:` compiles to at least one capture |
| QRoute.NamesHaveNoSlash | lib/qroute.js:76 | no collected name contains `/` |
| QRoute.CompileWellFormed | lib/qroute.js:73-79 | every compiled capture is followed by the end or by text starting with `/` |
| QRoute.MatchTokens | lib/qroute.js:50-56 | a match binds one capture per name, each without `/`, and leaves a tail that is empty or starts with `/` or `?` |
| QRoute.MatchSound | lib/qroute.js:50-56 | the matched path is the template filled with the captures, followed by the tail |
| QRoute.MatchComplete | lib/qroute.js:50-56 | a template filled with `/`-free captures, plus an empty or `/` tail, matches with exactly those captures and that tail |
| QRoute.VarsOfKeys | lib/qroute.js:52 | the bound variables are exactly the names |
| QRoute.VarsOfLast | lib/qroute.js:52 | a repeated name gets the capture of its last occurrence |
| QRoute.VarsOfValues | lib/qroute.js:52 | every bound value is one of the captures |
| QRoute.BindVars | lib/qroute.js:52 | the loop binds `vars[names[j]] = caps[j]` in order |
| QRoute.SplitQuery | lib/qroute.js:34-35 | the looked-up path has no `?`, and is the whole URL, or the text before `?` followed by the query |
| QRoute.Router.constructor | lib/qroute.js:11-14 | both tables start empty |
| QRoute.Router.AddRoute | lib/qroute.js:19-27 | a name without `/:` replaces the literal entry under that key, with the patterns unchanged; otherwise the compiled record is appended and the literals are unchanged |
| QRoute.Router.MapRoute | lib/qroute.js:32-65 | the lookup is the function `Lookup` of the two tables |
| QRoute.ScanPatterns | lib/qroute.js:47-64 | the loop returns the first matching pattern in registration order, or nothing |
| QRoute.FirstMatchSkips | lib/qroute.js:48-50 | patterns that do not match are passed over |
| QRoute.FirstMatchNone | lib/qroute.js:48-64 | the scan finds nothing exactly when no pattern from there on matches |
| QRoute.FirstMatchFound | lib/qroute.js:48-62 | a scan hit is the match of some pattern in the list |
| QRoute.LiteralWins | lib/qroute.js:36-44 | a literal hit wins over every pattern, with the query as tail and no variables |
| QRoute.FirstRegisteredWins | lib/qroute.js:47-62 | without a literal hit, the first matching pattern wins, whatever later ones would match |
| QRoute.NotFoundIff | lib/qroute.js:36-64 | a lookup fails exactly when no literal has the path and no pattern matches it |
| QRoute.PatternMatchMeaning | lib/qroute.js:50-60 | a pattern hit returns its record's name and handlers, the path is the filled template plus the tail, the variables hold no `/`, and the tail is absent exactly when empty |
| QRoute.AddedLiteralFound | lib/qroute.js:19-21 | a route added to the literal table is found under its own name |
| QRoute.AddedPatternFound | lib/qroute.js:22-26 | an appended pattern is found when nothing earlier matches |
| QRoute.LookupRecord | lib/qroute.js:36-62 | a lookup returns a record stored in one of the tables |
| QRoute.TwoCaptures | lib/qroute.js:70-83 | `/:x/:y` followed by a literal compiles to two captures and the literal; a path of that shape binds x and y to its two segments |
| QRoute.EchoNames | lib/qroute.js:70-83 | `/:x/:y/echo` compiles to captures x and y and the literal `/echo`; on `/1/2/echo` it matches with no tail and binds x=1 and y=2 |
| QRoute.CompileLeadingCap | lib/qroute.js:73-78 | a leading `/:name` compiles to a capture followed by the compiled rest |
| QRoute.CompileNoMark | lib/qroute.js:79 | a name without `/:` compiles to one literal |
| Pipeline.Outcome | lib/restiq.js:190-193 | `false` becomes the halt marker; an error stops the stack only when it is truthy |
| Pipeline.RunStack | lib/restiq.js:183-199 | handlers run in index order up to the first one that stops; the run's error is that handler's, and no error means the whole stack ran |
| Pipeline.RunMiddlewareStack | lib/restiq.js:183-200 | the loop computes the specification `RunStack` |
| Pipeline.AllContinue | lib/restiq.js:185-192 | when every handler continues, the whole stack runs with no error |
| Pipeline.StopsAtFirst | lib/restiq.js:186-193 | the first handler that stops ends the run, and its outcome is the run's |
| Pipeline.ErrorReply | lib/restiq.js:229-242 | the code is `statusCode`, then `code`, then 500 with "middleware error"; the message is followed by "; " and the stack when debug > 0 |
| Pipeline.RestifyReply | lib/qrestify.js:107-115 | the restify responder (the one the emulation handler installs too) writes `statusCode` or 500, with a JSON body |
| Pipeline.ModeAfter | lib/restiq.js:367-373 | once the emulation handler has run, the restify responder is installed; otherwise the responder is unchanged |
| Pipeline.RespondTo | lib/restiq.js:217-247 | each call goes to the installed responder and is recorded; the built-in responders write only when nothing was written before; a custom one writes nothing |
| Pipeline.RunStageWith | lib/restiq.js:183-200 | a stack run with its continuation, as the function `RunStage` |
| Pipeline.ConcludeWith | lib/restiq.js:147-151 | the finally stack, then `finishMiddlewareStack`, as the function `Conclude` |
| Pipeline.StageAllGo | lib/restiq.js:183-198 | a stack whose handlers all continue records them all and calls `next()` |
| Pipeline.StageStops | lib/restiq.js:195-197 | a stack error calls the responder, then `next(err)`, unless the responder never calls back |
| Pipeline.StageHalts | lib/restiq.js:191-197 | `false` ends the stack, calls `next()` and calls no responder |
| Pipeline.DispatchOrder | lib/restiq.js:114-152 | when every handler continues, dispatch runs setup, the route's stack, then finally, and writes nothing |
| Pipeline.UnmappedSkipsFinally | lib/restiq.js:122-123 | an unmapped request gets the 405 error, runs neither its stack nor finally, and never finishes |
| Pipeline.SetupHaltStillRoutes | lib/restiq.js:191-197 | a halt in setup still routes and runs the route's stack and finally |
| Pipeline.HaltCallsNoResponder | lib/restiq.js:191-197 | a halt in the route's stack skips the rest of it, runs finally and calls no responder |
| Pipeline.StackErrorRespondsTwice | lib/restiq.js:146-148 | without the restify emulation, a stack error calls the built-in responder from the stack's end and again from `finishMiddlewareStack`; the reply is for that error |
| Pipeline.SetupErrorSkipsRouting | lib/restiq.js:114-119 | a setup error, before the emulation handler runs, gets the built-in responder, runs finally and skips routing; the responder is called twice |
| Pipeline.EmulationInstallsRestifyResponder | lib/restiq.js:367-373 | in restify mode, an error after the emulation handler gets the JSON reply whatever responder was installed before, and the request stalls without running finally |
| Pipeline.EmulatedStageStalls | lib/restiq.js:183-200 | a stack headed by the emulation handler answers its error with the restify responder and never calls back |
| Pipeline.FirstResponse | lib/restiq.js:236 | finds the first responder call in a trace, if any |
| Pipeline.FirstResponseAppend | lib/restiq.js:236 | the first response of a joined trace is the first of the first part, if any, else the first of the second |
| Pipeline.ReplyIsFirstError | lib/restiq.js:236-241 | without the restify emulation and with the built-in responder, the reply written is the one for the first error the responder got, and nothing is written if it got none |
| Pipeline.StageKeepsFirstWins | lib/restiq.js:236 | one stack run keeps that reply invariant |
| Pipeline.CustomWritesNothing | lib/restiq.js:223-228 | a custom responder leaves the reply unwritten |
| Pipeline.SilentResponderStalls | lib/qrestify.js:107-115 | a responder that never calls back stalls the request at the first stack error |
| Pipeline.ConcatArrays | lib/restiq.js:174-181 | the loop concatenates the first `len` items of each argument (all of them when `len` is absent or 0) |
| Pipeline.ComposedStack | lib/restiq.js:134-141 | the composed stack is `_before` up to `steps` (all of it when `steps` is 0), then the handlers, then `_after` |
| Pipeline.FrozenSteps | lib/restiq.js:134-141 | steps added to `_before` after a route are not in its stack; a route added with empty `_before` gets all of it |
| Restiq.LocationOf | lib/restiq.js:258-263 | the four location names, and nothing else, select a stage |
| Restiq.PlanAppend | lib/restiq.js:253-256 | flattening an array handles its items in order and stops at the first throw |
| Restiq.PlanAllFunctions | lib/restiq.js:253-262 | when every leaf is a function, all are added in order and nothing throws |
| Restiq.PlanStopsAtNonFunction | lib/restiq.js:257 | the first non-function throws, after the functions before it were added |
| Restiq.PlanUnknownLocation | lib/restiq.js:263 | an unknown location adds nothing and throws |
| Restiq.Push | lib/restiq.js:258-263 | appending to one stage list leaves the other three unchanged |
| Restiq.PushTwice | lib/restiq.js:253-254 | two appends to a stage are one append of both |
| Restiq.App.constructor | lib/restiq.js:51-70 | empty stage lists and matchers and the built-in responder; under restify mode the emulation handler is first in `_before` and is remembered as the one that installs the restify responder |
| Restiq.App.SetErrorHandler | lib/restiq.js:87-90 | installs the responder and changes nothing else |
| Restiq.App.AddStep | lib/restiq.js:251-265 | the stage lists grow as the specification `Plan` says; the result is its throw |
| Restiq.App.AddEach | lib/restiq.js:253-256 | the items of an array are added in order, as `Plan` of the flattened items says, stopping at the first throw |
| Restiq.App.AddHandler | lib/restiq.js:257-263 | a lone function is appended to exactly its location's list |
| Restiq.App.Pre | lib/restiq.js:312-314 | `addStep(func, 'setup')`: only the setup list changes, and the responder stays |
| Restiq.App.Use | lib/restiq.js:315-317 | `addStep(func, 'use')`: only `_before` changes, and the responder stays |
| Restiq.App.Finally | lib/restiq.js:319-321 | `addStep(func, 'finally')`: only the finally list changes, and the responder stays |
| Restiq.App.AddToMatcher | lib/restiq.js:274-286 | a matcher's `addRoute`, with `steps` set to the length of `_before` |
| Restiq.App.AddRoute | lib/restiq.js:267-288 | the method is upper-cased and a lone handler wrapped; GET and POST use their own matcher under the path, anything else the third under `METHOD::path`; `steps` is the length of `_before` |
| Restiq.App.Get | lib/restiq.js:323-328 | a GET route under the path is stored in the GET matcher as `addRoute` stores it, with `steps` the length of `_before` |
| Restiq.App.Put | lib/restiq.js:329-334 | a route under `PUT::path` is stored in the third matcher, with `steps` the length of `_before` |
| Restiq.App.Post | lib/restiq.js:335-340 | a POST route under the path is stored in the POST matcher, with `steps` the length of `_before` |
| Restiq.App.Del | lib/restiq.js:341-347 | a route under `DELETE::path` is stored in the third matcher, with `steps` the length of `_before` |
| Restiq.App.RouteOf | lib/restiq.js:290-306 | a mapped route's record is one the application stores, with `steps` within `_before` |
| Restiq.App.MapRoute | lib/restiq.js:290-306 | the lookup is the function `RouteOf` |
| Restiq.StripMethodKey | lib/restiq.js:302-303 | stripping up to `::` gives back the registered path |
| Restiq.OtherRouteName | lib/restiq.js:298-304 | a match in the third matcher gets back the template's own name |
| Restiq.Unprefixed | lib/restiq.js:302-303 | stripping keeps the matched record, variables and handlers |
| Restiq.UpperIdempotent | lib/restiq.js:268 | upper-casing twice is upper-casing once |
| Restiq.StackFor | lib/restiq.js:129-142 | a cached stack is reused whatever the stage lists now hold; otherwise the stack is `_before` cut to `steps`, the handlers, then `_after` |
| Restiq.App.CacheStack | lib/restiq.js:128-143 | the stack is built once and stored in the route's record |
| Restiq.App.BindParams | lib/restiq.js:124-125 | a pattern match's variables become the request's parameters; a literal match leaves them empty |
| Restiq.App.RouteRequest | lib/restiq.js:121-152 | routing, parameters, the stack and the finally stack, as the function `Route` |
| Restiq.App.RunRoute | lib/restiq.js:146-152 | the route's stack, then `Conclude` |
| Restiq.App.ServeRequest | lib/restiq.js:104-154 | a request is served as `Serve` says, with fresh parameters; the mapped record caches its stack exactly when setup lets routing proceed |
| Restiq.App.Dispatch | lib/restiq.js:104-154 | as `ServeRequest`, and the responder installed at the end of the request (the restify one once the emulation handler has run) stays installed for later requests |
| Restiq.RecordsAfterAdd | lib/restiq.js:274-283 | registering adds no record but the new one |
| RLib.Request.constructor | lib/restiq.js:107 | a request starts with empty parameters and an unset latch |
| RLib.MergeInto | lib/rlib.js:202 | merged keys are the union, and later values overwrite |
| RLib.ParseRouteParams | lib/rlib.js:109-114 | the route's variables are copied into the parameters, overwriting the same names |
| RLib.DecodeSpec | lib/rlib.js:195-204 | an unknown type decodes nothing; otherwise every decoded key is written into the parameters |
| RLib.DecodeBody | lib/rlib.js:195-204 | the decoding loop computes `DecodeSpec` |
| RLib.QuerySlice | lib/rlib.js:49-52 | the query is the text after the first `?`, up to the first `#` |
| RLib.QueryBetweenMarks | lib/rlib.js:49-52 | with both marks present, the query is the text strictly between them |
| RLib.ParseQueryParams | lib/rlib.js:47-56 | no `?` leaves the parameters alone; a decode failure is a 400 error with the parameters unchanged |
| RLib.ReadStep | lib/rlib.js:124-164 | a set latch is left alone; an unset one ends set, with the chunks joined in order, or stays reading on a stream error |
| RLib.ReadOnce | lib/rlib.js:128-129 | a second read changes nothing |
| RLib.ChunksInOrder | lib/rlib.js:158-162 | a later chunk ends up at the end of the body |
| RLib.ReadBody | lib/rlib.js:124-164 | the latch and the body change as `ReadStep` says, and nothing else does |
| RLib.SkipBody | lib/rlib.js:116-122 | the body becomes empty and the latch set |
| RLib.HexRun | lib/rlib.js:79 | the longest prefix made of the base64-looking class |
| RLib.LooksBase64Meaning | lib/rlib.js:79-80 | the sniffing expression holds exactly when the text is such a run followed only by `=` and line breaks |
| RLib.SniffType | lib/rlib.js:71-82 | a given content type is kept; without one, `{` means JSON, `[` octets, a base64-looking body (its first 10000 characters when longer) base64, anything else text |
| RLib.EmptyBodyIsBase64 | lib/rlib.js:79 | an empty body sniffs as base64 |
| RLib.ParsedBody | lib/rlib.js:59-85 | an undefined body makes the type guess throw; plain text is kept; an unknown type leaves `undefined`; a decoded object replaces a text body, which a decoder error leaves alone |
| RLib.ParseBody | lib/rlib.js:65-89 | after reading, a read error is passed on; otherwise the body becomes what `ParsedBody` says, and decoder errors are dropped |
| RLib.ParseBodyParams | lib/rlib.js:91-107 | reads the body first; then decodes by content type (text by default) into the parameters; a type with no decoder decodes nothing and is no error; a decoder failure gives a 400 error |
| RLib.ColonIndex | lib/rlib.js:173 | the loop finds the first `:` or the end |
| RLib.SplitCredentials | lib/rlib.js:173-175 | the user is the text before the first `:` and the password the text after it; with no colon, the whole text and "" |
| RLib.CredentialsRoundTrip | lib/rlib.js:173-175 | a colon-free user and any password come back from `user:pass` |
| RLib.BasicSchemeAsWritten | lib/rlib.js:171 | "Basic" is accepted and anything else throws |
| RLib.LowerCaseSchemeThrows | lib/rlib.js:171 | "basic" and "Bearer" both throw as written |
| RLib.BasicScheme | lib/rlib.js:171 | the corrected test: the scheme is "basic" in any case |
| RLib.BasicAnyCase | lib/rlib.js:171 | every spelling of "basic" is accepted |
| RLib.ParseAuthorization | lib/rlib.js:167-183 | with the corrected scheme test of `BasicScheme`: no header or another scheme changes nothing; a Basic header sets the user and the credentials split from the decoded value |
| QRestify.Position | lib/qrestify.js:200 | `indexOf`: the first position of the type, or -1 exactly when it is absent |
| QRestify.FirstHitMeaning | lib/qrestify.js:198-212 | the search answers `false` exactly when no token selects a type, and otherwise the type of the first token that does |
| QRestify.FirstHitSkipsMisses | lib/qrestify.js:198-210 | tokens that select nothing are passed over |
| QRestify.TrimAll | lib/qrestify.js:199 | every token trimmed |
| QRestify.Accepts | lib/qrestify.js:187-213 | the result is the specification `AcceptsSpec` |
| QRestify.SearchTokens | lib/qrestify.js:197-212 | the loop returns what the first selecting trimmed token selects, or `false` |
| QRestify.Select | lib/qrestify.js:200-209 | an offered token selects itself; else a token without `/` selects its alias |
| QRestify.TrimmedHit | lib/qrestify.js:198-208 | the first selecting token decides |
| QRestify.TrimmedMisses | lib/qrestify.js:198-212 | no selecting token means `false` |
| QRestify.AcceptsWildcard | lib/qrestify.js:190-192 | no header, or a header with `*/*`, gives the first offered type |
| QRestify.AcceptsTokens | lib/qrestify.js:197 | any other header is split on `;` and searched |
| QRestify.OneToken | lib/qrestify.js:197-199 | a plain header is one token |
| QRestify.AliasBypassesOffer | lib/qrestify.js:202-208 | a bare alias gives its full type even when that type is not offered |
| QRestify.CommaListIsOneToken | lib/qrestify.js:197 | a comma-separated list is one token, and matches nothing even when every member is offered |
| QRestify.AcceptDecision | lib/qrestify.js:87-91 | the middleware calls `next()` exactly when the choice is a non-empty type, and otherwise throws NotAcceptable |
| QRestify.UnofferedTypeRefused | lib/qrestify.js:88-89 | a full type that is not offered is refused |
| QRestify.HtmlAliasAccepted | lib/qrestify.js:88-91 | `Accept: html` gives text/html against the default list of types |
| QRestify.NoBreakSpaceTrimmed | lib/qrestify.js:199 | `json` followed by a no-break space is trimmed to `json` and selects application/json |
| QRestify.AcceptParser | lib/qrestify.js:85-93 | the chosen type becomes the Content-Type; a refusal leaves the response untouched |
| QRestify.ArgsAfterPath | lib/qrestify.js:34-35 | every argument after the path, in order, is a handler |
| QRestify.ExtraVerbsAreOther | lib/qrestify.js:52-60 | head, opts and patch register HEAD, OPTIONS and PATCH routes under `METHOD::path` |
| QRestify.AddRestifyErrorHandler | lib/qrestify.js:107-115 | the restify responder is installed, and the stage lists stay |
| QRestify.AddRestifyRoute | lib/qrestify.js:32-60 | a restify verb stores a route in its method's matcher, with the arguments after the path as the handler list |
| QRestify.ReasonPhrasesClean | lib/qrestify.js:76 | no minted error's message contains "error decoding body" |
| QRestify.MintedErrorsPass | lib/qrestify.js:76-77 | so every minted error is passed on |
| QRestify.DecodeErrorsDropped | lib/qrestify.js:76 | an error whose message holds "error decoding body" is dropped |
| QRestify.BodyParser | lib/qrestify.js:73-79 | `parseBody` with its error filtered: the body becomes what `ParsedBody` says, it throws exactly when the type guess does, and the parameters are untouched |
| QRestify.NormaliseArgs | lib/qrestify.js:124-127 | the argument shuffle of `send` |
| QRestify.EncodeArgs | lib/qrestify.js:135-151 | the encoding choice and the content, as `EncodeBody` |
| QRestify.StatusOnlySendsEmpty | lib/qrestify.js:124-125 | `send(code)` sends an empty text body with that status |
| QRestify.OneArgumentIsBody | lib/qrestify.js:126 | `send(body)` is `send(200, body)` |
| QRestify.NonObjectIsText | lib/qrestify.js:135-151 | a non-object goes out as its text, as text/plain |
| QRestify.StringSentVerbatim | lib/qrestify.js:151-160 | a string is sent as it is, and its Content-Length is its UTF-16 length |
| QRestify.AstralLength | lib/qrestify.js:160 | a character above U+FFFF counts two in Content-Length |
| QRestify.ErrorIsJson | lib/qrestify.js:137-139 | an Error is JSON, with its own status code or 500 |
| QRestify.BufferIsOctets | lib/qrestify.js:142 | a buffer goes out as its bytes, as an octet stream |
| QRestify.OtherObjectIsJson | lib/qrestify.js:143-145 | any other object, and `null`, is JSON |
| QRestify.Response.constructor | lib/qrestify.js:122 | a fresh response: status 200, no headers, nothing sent |
| QRestify.Response.Send | lib/qrestify.js:122-163 | status, body and Content-Type as `Encode` says, and Content-Length the content's `length` (UTF-16 code units of text, bytes of a buffer); the content is written unless the status is 204 or 304 or the request is HEAD |
| QRestify.Response.Emit | lib/qrestify.js:155-162 | `_body`, status, Content-Type and Content-Length (the content's `length`) are set, and the content is written unless the status is 204 or 304 or the request is HEAD |
| JsStrings.Utf16LengthBounds | lib/qrestify.js:160 | a string's `length` (UTF-16 code units) is between its character count and twice that |
| JsStrings.Utf16LengthPlain | lib/qrestify.js:160 | the `length` equals the character count exactly when no character is above U+FFFF |
| JsStrings.Utf16Append | lib/qrestify.js:160 | the length of a concatenation is the sum of the lengths |
| JsStrings.IndexOf | lib/qroute.js:20 | `indexOf`: the first occurrence, or -1 exactly when there is none |
| JsStrings.IndexOfChar | lib/qroute.js:34 | `indexOf` of one character |
| JsStrings.Split | lib/qrestify.js:197 | `split`: at least one part, none containing the separator |
| JsStrings.JoinSplit | lib/qrestify.js:197 | joining the parts with the separator gives back the text |
| JsStrings.TrimStart | lib/qrestify.js:199 | leading JavaScript white space and line terminators removed |
| JsStrings.TrimEnd | lib/qrestify.js:199 | trailing JavaScript white space and line terminators removed |
| JsStrings.ConcatAppend | lib/rlib.js:161 | joining chunks is associative at the end |
| Common.MintError | lib/errors.js:14-20 | a minted error has the status code and its reason phrase, and no `statusCode` |

## Left out

- Asynchrony and I/O. Stream events, `setTimeout` read loops, sockets, `listen`/`close` and `setNoDelay` are left out. A request stream is a value: its chunks in order, or a failure.
- Regular expressions are not executed. A template is a token list with a direct matcher, and the pattern text is proved to come from the same tokens.
- `JSON.parse`, `JSON.stringify`, base64 and the query decoders are function parameters with no stated behaviour. Decoded values are strings, and UTF-8 and floating point are not modelled.
- Strings are sequences of Unicode characters, so indexes and slices count characters. JavaScript counts UTF-16 code units. `Utf16Length` gives `length` where the core writes it out (Content-Length). Index arithmetic such as `indexOf` and `slice` agrees with the source, because a captured, split or trimmed piece is the same text either way.
- RLib.SniffType: the 10000 limit counts characters. In the source, `req.body.length` and `slice(0, 10000)` count code units, so a body holding characters above U+FFFF can reach the limit at a different place.
- The `'after'` event emit and the `readBody` call in `finishMiddlewareStack` and `_endWithError` are not modelled. They write no reply and call no handler.
- Restiq.App.MapRoute: a miss on the third matcher is `None`. The source dereferences the miss (lib/restiq.js:300-303) and throws a TypeError.
- Restiq.App.AddRoute: returns the stored record where the source returns `this`. `steps` is set when the record is created, because nothing runs between its creation and lib/restiq.js:286.
- A custom error handler is assumed to pass back the error it was given when it calls back.
- The emulation handler that restify mode puts first in `_before` is the identity `emulate`. Its `setErrorHandler` call is modelled: once it has run, the restify responder answers. The methods it adds to the request and response are not modelled.
- Handlers act only through what they pass to `next`. The next four lines say what they therefore cannot do.
- Pipeline.RunStack: a handler that throws is not modelled. `runMiddlewareStack` has no `catch` (lib/restiq.js:183-200), so the exception leaves dispatch. The model's own middlewares report such throws as `Threw`, or as `Overflow` for the recursion.
- Pipeline.ReplyIsFirstError: handlers write no reply of their own, so the `headersSent` guard (lib/restiq.js:236) sees only the responders' writes. A handler that sends a response and then calls `next(err)` is not covered.
- Restiq.App.BindParams: handlers do not write `req.params`. So the empty start it requires ignores a `pre` query parser's parameters, which `parseRouteParams` would merge with the route's variables (lib/rlib.js:112).
- Pipeline.ModeAfter: only the emulation handler installs a responder. Other handlers may call `setErrorHandler` in the source.
- QRoute.MatchTokens: any tail that starts with `/` or `?` is accepted. The source's `.` in `([/?].*)?$` (lib/qroute.js:81) stops at `\n`, `\r`, U+2028 and U+2029, so a tail holding one of them does not match there.
- JsStrings.ToUpper: ASCII letters only. `toUpperCase` (lib/restiq.js:268) also maps other letters, such as `ß` to `SS`.
- JsStrings.ToLower: ASCII letters only, like `ToUpper`.
- QRoute.Router.MapRoute: the literal table holds only added routes. In the source `_literals[routeName]` (lib/qroute.js:36) also finds inherited object properties such as `constructor`.
- RLib.DecodeSpec: only the five table types have a decoder. In the source `paramDecoders[type]` (lib/rlib.js:196) also finds inherited properties, so `Content-Type: constructor` decodes with `Object`.
- RLib.ParseBodyParams: a known type with a body that is not text (an object left by an earlier `parseBody`) is taken to make its decoder throw.
- The `errors.js` classes are a fixed table of the codes the core raises, and the code is a number, not the table's string key.
- MintError: the stack is "", because the captured stack trace is not modelled.
- QRestify.Accepts: inherited object properties such as `toString` count as alias hits in the source (`aliases[type]`). The model's alias table has only its three entries.
- QRestify.AcceptDecision: the NotAcceptable detail text is dropped, as `errors.js` drops it.
- QRestify.AddRestifyRoute: `argv` is at least the path. Arguments after it are handler identities, which is what the source forwards.
- QRestify.BodyParser: the `mapParams` branch is `RLib.ParseBodyParams` itself.
- QRestify.Response.Send: a plain object's fields are abstract. `res.header`, `res.get`, `res.json` and the request accessors are thin wrappers over Node and are left out.
- The restify-compatible `Restiq.queryParser`, `bodyParser` and `authorizationParser` factories (lib/restiq.js:349-361, lib/qrestify.js:65-84) only select one of the modelled middlewares.
- lib/http-client.js, lib/restifyqres.js, lib/fptime.js, the benchmark and the demo servers are not part of this model.

## Findings

| source | as written | input that shows it | evidently intended | confidence | as-written member | corrected member |
|---|---|---|---|---|---|---|
| lib/rlib.js:171 | `parts.toLowerCase[0] === 'basic'` reads a property of the array, which is undefined, and indexing it throws, so every scheme except exactly "Basic" throws | `Authorization: basic dXNlcjpwdw==` or `Authorization: Bearer x` | `parts[0].toLowerCase() === 'basic'`: accept the scheme in any case and pass other schemes through | not executed | RLib.LowerCaseSchemeThrows | RLib.BasicAnyCase |
