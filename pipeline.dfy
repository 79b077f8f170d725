/**
 * The request pipeline of lib/restiq.js: running a middleware stack
 * (`runMiddlewareStack`), the error responder (`_endWithError`), the end of
 * a request (`finishMiddlewareStack`), the dispatch order fixed by
 * `createServer`, and the stack composition done by `concatArrays`.
 *
 * Continuation passing is modelled synchronously. A handler is an abstract
 * id and `behave` says what it hands to its continuation on this request.
 * Dispatch produces a trace of the handlers it ran and of the error
 * responder calls it made, the reply the default responder wrote (if any),
 * and whether the server's completion callback was reached.
 */
module Pipeline {
  import opened Common

  /** What a handler passes to `next`: nothing, `false`, or some value. */
  datatype Signal = Continue | HaltFalse | Raise(err: ErrValue)

  /** The string `runMiddlewareStack` substitutes for `false`. */
  const HaltText: string := "halt mw"

  /**
   * The value reaching `cb(err, done)` after `false` is replaced by
   * "halt mw"; `None` is a falsy value, which does not stop the stack.
   */
  function Outcome(s: Signal): (r: Option<ErrValue>)
    ensures r.Some? <==> !s.Continue? && (s.Raise? ==> Truthy(s.err))
    ensures s.HaltFalse? ==> r == Some(ErrText(HaltText))
  {
    match s
    case Continue => None
    case HaltFalse => Some(ErrText(HaltText))
    case Raise(e) => if Truthy(e) then Some(e) else None
  }

  /** The error `whenDone` hands to `_endWithError`: any stop except a halt. */
  function Failure(err: Option<ErrValue>): Option<ErrValue>
  {
    if err.Some? && err.value != ErrText(HaltText) then err else None
  }

  /** The handlers a stack run invoked (a prefix of the stack) and the value it stopped with. */
  datatype StackRun = StackRun(ran: seq<HandlerId>, err: Option<ErrValue>)

  /**
   * The `aflow.repeatUntil` loop from index `i` on: run the handler, stop
   * when it reports a truthy value or it was the last one.
   */
  function VisitFrom(stack: seq<HandlerId>, i: nat, behave: HandlerId -> Signal): (r: StackRun)
    requires i < |stack|
    ensures i < |r.ran| <= |stack| && r.ran == stack[..|r.ran|]
    ensures forall j :: i <= j < |r.ran| - 1 ==> Outcome(behave(stack[j])).None?
    ensures r.err == Outcome(behave(stack[|r.ran| - 1]))
    ensures r.err.None? ==> |r.ran| == |stack|
    decreases |stack| - i
  {
    var e := Outcome(behave(stack[i]));
    if e.Some? || i + 1 == |stack| then StackRun(stack[..i + 1], e)
    else VisitFrom(stack, i + 1, behave)
  }

  /**
   * `runMiddlewareStack` up to its `whenDone`: an empty stack runs nothing;
   * otherwise handlers run in index order until the last one, or until the
   * first that reports `false` or another truthy value.
   */
  function RunStack(stack: seq<HandlerId>, behave: HandlerId -> Signal): (r: StackRun)
    ensures |r.ran| <= |stack| && r.ran == stack[..|r.ran|]
    ensures stack == [] <==> r.ran == []
    ensures forall j :: 0 <= j < |r.ran| - 1 ==> Outcome(behave(stack[j])).None?
    ensures r.ran != [] ==> r.err == Outcome(behave(r.ran[|r.ran| - 1]))
    ensures r.err.None? ==> r.ran == stack
  {
    if |stack| == 0 then StackRun([], None) else VisitFrom(stack, 0, behave)
  }

  /** A stack whose every handler continues runs to the end with no error. */
  lemma AllContinue(stack: seq<HandlerId>, behave: HandlerId -> Signal)
    requires forall j :: 0 <= j < |stack| ==> behave(stack[j]) == Continue
    ensures RunStack(stack, behave) == StackRun(stack, None)
  {
    var r := RunStack(stack, behave);
    if r.ran != [] {
      assert r.ran[|r.ran| - 1] == stack[|r.ran| - 1];
    }
  }

  /** The first handler that does not continue ends the run, and is the last one run. */
  lemma StopsAtFirst(stack: seq<HandlerId>, behave: HandlerId -> Signal, k: nat)
    requires k < |stack| && behave(stack[k]) != Continue
    requires behave(stack[k]).Raise? ==> Truthy(behave(stack[k]).err)
    requires forall j :: 0 <= j < k ==> Outcome(behave(stack[j])).None?
    ensures RunStack(stack, behave) == StackRun(stack[..k + 1], Outcome(behave(stack[k])))
  {
    var r := RunStack(stack, behave);
    var n := |r.ran|;
    assert Outcome(behave(stack[k])).Some?;
    assert n - 1 <= k;
  }

  /**
   * `runMiddlewareStack`'s loop: `i` advances past each handler run, and
   * the loop stops on a truthy value or when `i` reaches the length.
   */
  method RunMiddlewareStack(stack: seq<HandlerId>, behave: HandlerId -> Signal)
    returns (ran: seq<HandlerId>, err: Option<ErrValue>)
    ensures StackRun(ran, err) == RunStack(stack, behave)
  {
    ran := [];
    err := None;
    var len := |stack|;
    if len <= 0 {
      return;
    }
    var i := 0;
    var done := false;
    while !done
      invariant 0 <= i <= len && ran == stack[..i]
      invariant !done ==> i < len && RunStack(stack, behave) == VisitFrom(stack, i, behave)
      invariant done ==> StackRun(ran, err) == RunStack(stack, behave)
      decreases len - i
    {
      var handler := stack[i];
      i := i + 1;
      ran := ran + [handler];
      err := Outcome(behave(handler));
      done := err.Some? || i >= len;
    }
  }

  // ---------------------------------------------------------------------
  // the error responder

  /** The body of a reply written by an error responder. */
  datatype ReplyBody =
    | PlainText(text: string)
    | ErrorJson(err: ErrValue)

  datatype Reply = Reply(code: int, body: ReplyBody)

  /**
   * Who answers `_endWithError`: the built-in responder, the responder
   * installed by the restify emulation (which writes JSON and never calls
   * back), or a custom handler that may or may not call its callback.
   */
  datatype ErrorMode = DefaultResponder | RestifyResponder | CustomResponder(callsBack: bool)

  /** The message an error value carries (`err.message`), empty for a string. */
  function MessageOf(err: ErrValue): string
  {
    if err.ErrObj? then err.message else ""
  }

  /** The stack text `"; " + err.stack` appends: a string has no stack. */
  function StackText(err: ErrValue): string
  {
    if err.ErrObj? then err.stack else "undefined"
  }

  /**
   * The status code and message of the built-in responder: 500 and
   * "middleware error" unless the error has a truthy `statusCode` or,
   * failing that, a truthy `code`, which then come with `err.message`;
   * with `debug > 0` the stack is appended after "; ".
   */
  function ErrorReply(err: ErrValue, debug: int): (r: Reply)
    ensures r.body.PlainText?
    ensures err.ErrObj? && err.statusCode != 0 ==> r.code == err.statusCode
    ensures err.ErrObj? && err.statusCode == 0 && err.code != 0 ==> r.code == err.code
    ensures (err.ErrText? || (err.statusCode == 0 && err.code == 0)) ==> r.code == 500
    ensures debug <= 0 ==> r.body.text == (if r.code == 500 && (err.ErrText? || (err.statusCode == 0 && err.code == 0)) then "middleware error" else err.message)
    ensures debug > 0 ==> r.body.text == (if r.code == 500 && (err.ErrText? || (err.statusCode == 0 && err.code == 0)) then "middleware error" else err.message) + "; " + StackText(err)
  {
    var code := if err.ErrObj? && err.statusCode != 0 then err.statusCode
                else if err.ErrObj? && err.code != 0 then err.code
                else 500;
    var message := if err.ErrObj? && (err.statusCode != 0 || err.code != 0) then err.message
                   else "middleware error";
    Reply(code, PlainText(if debug > 0 then message + "; " + StackText(err) else message))
  }

  /** The restify emulation's reply: `err.statusCode || 500`, as JSON. */
  function RestifyReply(err: ErrValue): (r: Reply)
    ensures r.code == (if err.ErrObj? && err.statusCode != 0 then err.statusCode else 500)
    ensures r.body == ErrorJson(err)
  {
    Reply(if err.ErrObj? && err.statusCode != 0 then err.statusCode else 500, ErrorJson(err))
  }

  /** The events a dispatch produces. */
  datatype Event = Ran(h: HandlerId) | Responded(err: ErrValue)

  /**
   * What has happened so far on a request: events, the reply written
   * (headers sent), and the error responder the application has installed.
   */
  datatype Trace = Trace(events: seq<Event>, written: Option<Reply>, mode: ErrorMode)

  function RanAll(hs: seq<HandlerId>): (es: seq<Event>)
    ensures |es| == |hs| && forall j :: 0 <= j < |hs| ==> es[j] == Ran(hs[j])
  {
    seq(|hs|, j requires 0 <= j < |hs| => Ran(hs[j]))
  }

  /**
   * The responder installed after the handlers `ran`: the restify emulation
   * handler `emulate`, when it is one of them, installs the restify
   * responder with `setErrorHandler`; otherwise nothing changes.
   */
  function ModeAfter(mode: ErrorMode, ran: seq<HandlerId>, emulate: Option<HandlerId>): (m: ErrorMode)
    ensures emulate.Some? && emulate.value in ran ==> m == RestifyResponder
    ensures (emulate.None? || emulate.value !in ran) ==> m == mode
  {
    if emulate.Some? && emulate.value in ran then RestifyResponder else mode
  }

  /** Handlers appended to a trace, with the responder they leave installed. */
  function RanOn(t: Trace, hs: seq<HandlerId>, emulate: Option<HandlerId>): Trace
  {
    Trace(t.events + RanAll(hs), t.written, ModeAfter(t.mode, hs, emulate))
  }

  /**
   * One call of `_endWithError` with the responder currently installed:
   * the call is recorded, and a responder that writes does so only while no
   * reply has been written.
   */
  function RespondTo(t: Trace, err: ErrValue, debug: int): (r: Trace)
    ensures r.events == t.events + [Responded(err)] && r.mode == t.mode
    ensures t.written.Some? ==> r.written == t.written
    ensures t.written.None? && t.mode.DefaultResponder? ==> r.written == Some(ErrorReply(err, debug))
    ensures t.written.None? && t.mode.RestifyResponder? ==> r.written == Some(RestifyReply(err))
    ensures t.mode.CustomResponder? ==> r.written == t.written
  {
    var reply := match t.mode
      case DefaultResponder => Some(ErrorReply(err, debug))
      case RestifyResponder => Some(RestifyReply(err))
      case CustomResponder(_) => None;
    Trace(t.events + [Responded(err)], if t.written.None? then reply else t.written, t.mode)
  }

  /** Whether `_endWithError` goes on to call `next(err)`. */
  predicate CallsNext(mode: ErrorMode)
  {
    mode.DefaultResponder? || (mode.CustomResponder? && mode.callsBack)
  }

  /** How a stack run ends: its `next` is called (with an error or not), or it never is. */
  datatype StackEnd = Proceed(err: Option<ErrValue>) | Stalled

  /**
   * `runMiddlewareStack` with its `whenDone`, as a step on the trace: the
   * error, if any, goes to the responder installed once the stack has run.
   */
  function RunStage(t: Trace, stack: seq<HandlerId>, behave: HandlerId -> Signal, emulate: Option<HandlerId>, debug: int): (Trace, StackEnd)
  {
    var r := RunStack(stack, behave);
    var t1 := RanOn(t, r.ran, emulate);
    match Failure(r.err)
    case None => (t1, Proceed(None))
    case Some(e) => (RespondTo(t1, e, debug), if CallsNext(t1.mode) then Proceed(Some(e)) else Stalled)
  }

  /** `finishMiddlewareStack`: an error goes to `_endWithError`, without a continuation. */
  function Finish(t: Trace, err: Option<ErrValue>, debug: int): Trace
  {
    if err.Some? then RespondTo(t, err.value, debug) else t
  }

  /** The outcome of a request: its trace, and whether `whenDone` was reached. */
  datatype Served = Served(trace: Trace, finished: bool)

  /** The error `mapRoute` failure raises: `new ErrorMethodNotAllowed("route not mapped")`. */
  function NotMapped(): (e: ErrValue)
    ensures e.ErrObj? && e.code == 405
  {
    MintError(405, "route not mapped")
  }

  /** The finally stack, then `finishMiddlewareStack` with the error that led here. */
  function Conclude(t: Trace, err: Option<ErrValue>, fin: seq<HandlerId>,
                    behave: HandlerId -> Signal, emulate: Option<HandlerId>, debug: int): Served
  {
    var (t2, s2) := RunStage(t, fin, behave, emulate, debug);
    if s2.Stalled? then Served(t2, false) else Served(Finish(t2, err, debug), true)
  }

  /**
   * After the setup stack: an unmapped request gets the 405 error and goes
   * no further; a mapped one runs its composed stack and then concludes.
   */
  function Route(t: Trace, route: Option<seq<HandlerId>>, fin: seq<HandlerId>,
                 behave: HandlerId -> Signal, emulate: Option<HandlerId>, debug: int): Served
  {
    if route.None? then Served(RespondTo(t, NotMapped(), debug), false)
    else
      var (t2, s2) := RunStage(t, route.value, behave, emulate, debug);
      if s2.Stalled? then Served(t2, false) else Conclude(t2, s2.err, fin, behave, emulate, debug)
  }

  /**
   * The dispatch closure of `createServer`, starting with the responder
   * `mode` installed: the setup stack; on its error the finally stack and
   * the end; otherwise routing (`route` is the composed stack of the mapped
   * route, `None` when unmapped), the main stack, the finally stack and the
   * end.
   */
  function Serve(setup: seq<HandlerId>, route: Option<seq<HandlerId>>, fin: seq<HandlerId>,
                 behave: HandlerId -> Signal, emulate: Option<HandlerId>, mode: ErrorMode, debug: int): Served
  {
    var (t1, s1) := RunStage(Trace([], None, mode), setup, behave, emulate, debug);
    if s1.Stalled? then Served(t1, false)
    else if s1.err.Some? then Conclude(t1, s1.err, fin, behave, emulate, debug)
    else Route(t1, route, fin, behave, emulate, debug)
  }

  /**
   * `runMiddlewareStack` with its `whenDone`: a failure goes to
   * `_endWithError`, which calls `next(err)` unless the responder never
   * calls back; anything else calls `next()`.
   */
  method RunStageWith(t: Trace, stack: seq<HandlerId>, behave: HandlerId -> Signal, emulate: Option<HandlerId>, debug: int)
    returns (t2: Trace, e: StackEnd)
    ensures (t2, e) == RunStage(t, stack, behave, emulate, debug)
  {
    var ran, err := RunMiddlewareStack(stack, behave);
    t2 := RanOn(t, ran, emulate);
    if err.Some? && err.value != ErrText(HaltText) {
      var mode := t2.mode;
      t2 := RespondTo(t2, err.value, debug);
      e := if CallsNext(mode) then Proceed(err) else Stalled;
    } else {
      e := Proceed(None);
    }
  }

  /** The finally stack, and then `finishMiddlewareStack(err)` once it calls back. */
  method ConcludeWith(t: Trace, err: Option<ErrValue>, fin: seq<HandlerId>,
                      behave: HandlerId -> Signal, emulate: Option<HandlerId>, debug: int) returns (s: Served)
    ensures s == Conclude(t, err, fin, behave, emulate, debug)
  {
    var t2, e2 := RunStageWith(t, fin, behave, emulate, debug);
    if e2.Stalled? {
      return Served(t2, false);
    }
    var t3 := t2;
    if err.Some? {
      t3 := RespondTo(t2, err.value, debug);
    }
    return Served(t3, true);
  }

  // ---------------------------------------------------------------------
  // properties of dispatch

  predicate AllGo(hs: seq<HandlerId>, behave: HandlerId -> Signal)
  {
    forall j :: 0 <= j < |hs| ==> behave(hs[j]) == Continue
  }

  lemma StageAllGo(t: Trace, stack: seq<HandlerId>, behave: HandlerId -> Signal, emulate: Option<HandlerId>, debug: int)
    requires AllGo(stack, behave)
    ensures RunStage(t, stack, behave, emulate, debug) == (RanOn(t, stack, emulate), Proceed(None))
  {
    AllContinue(stack, behave);
  }

  lemma StageStops(t: Trace, stack: seq<HandlerId>, behave: HandlerId -> Signal, emulate: Option<HandlerId>, debug: int,
                   k: nat, e: ErrValue)
    requires k < |stack| && behave(stack[k]) == Raise(e) && Truthy(e) && e != ErrText(HaltText)
    requires forall j :: 0 <= j < k ==> behave(stack[j]) == Continue
    ensures var t1 := RanOn(t, stack[..k + 1], emulate);
            RunStage(t, stack, behave, emulate, debug)
            == (RespondTo(t1, e, debug), if CallsNext(t1.mode) then Proceed(Some(e)) else Stalled)
  {
    StopsAtFirst(stack, behave, k);
    assert Failure(Some(e)) == Some(e);
  }

  lemma StageHalts(t: Trace, stack: seq<HandlerId>, behave: HandlerId -> Signal, emulate: Option<HandlerId>, debug: int, k: nat)
    requires k < |stack| && behave(stack[k]) == HaltFalse
    requires forall j :: 0 <= j < k ==> behave(stack[j]) == Continue
    ensures RunStage(t, stack, behave, emulate, debug) == (RanOn(t, stack[..k + 1], emulate), Proceed(None))
  {
    StopsAtFirst(stack, behave, k);
  }

  lemma ConcludeAllGo(t: Trace, err: Option<ErrValue>, fin: seq<HandlerId>,
                      behave: HandlerId -> Signal, emulate: Option<HandlerId>, debug: int)
    requires AllGo(fin, behave)
    ensures Conclude(t, err, fin, behave, emulate, debug) == Served(Finish(RanOn(t, fin, emulate), err, debug), true)
  {
    StageAllGo(t, fin, behave, emulate, debug);
  }

  /** Two runs in a row are one run of both, as to events and the responder left installed. */
  lemma RanOnTwice(t: Trace, a: seq<HandlerId>, b: seq<HandlerId>, emulate: Option<HandlerId>)
    ensures RanOn(RanOn(t, a, emulate), b, emulate) == RanOn(t, a + b, emulate)
  {
    assert RanAll(a + b) == RanAll(a) + RanAll(b);
  }

  lemma StartEmpty(es: seq<Event>)
    ensures [] + es == es
  {
  }

  /**
   * When every handler continues, a mapped request runs the setup stack,
   * then the composed stack, then the finally stack, in that order, no
   * responder is called and the completion callback is reached; the
   * restify responder is installed exactly when the emulation handler ran.
   */
  lemma DispatchOrder(setup: seq<HandlerId>, stack: seq<HandlerId>, fin: seq<HandlerId>,
                      behave: HandlerId -> Signal, emulate: Option<HandlerId>, mode: ErrorMode, debug: int)
    requires AllGo(setup, behave) && AllGo(stack, behave) && AllGo(fin, behave)
    ensures Serve(setup, Some(stack), fin, behave, emulate, mode, debug)
            == Served(Trace(RanAll(setup) + RanAll(stack) + RanAll(fin), None, ModeAfter(mode, setup + stack + fin, emulate)), true)
  {
    var t0 := Trace([], None, mode);
    StageAllGo(t0, setup, behave, emulate, debug);
    var t1 := RanOn(t0, setup, emulate);
    StartEmpty(RanAll(setup));
    StageAllGo(t1, stack, behave, emulate, debug);
    var t2 := RanOn(t1, stack, emulate);
    ConcludeAllGo(t2, None, fin, behave, emulate, debug);
    RanOnTwice(t0, setup, stack, emulate);
    RanOnTwice(t0, setup + stack, fin, emulate);
    assert [] + RanAll(setup + stack + fin) == RanAll(setup) + RanAll(stack) + RanAll(fin);
  }

  /**
   * An unmapped request: after the setup stack the responder is called
   * once with the 405 error; neither the composed stack nor the finally
   * stack runs and the completion callback is not reached.
   */
  lemma UnmappedSkipsFinally(setup: seq<HandlerId>, fin: seq<HandlerId>,
                             behave: HandlerId -> Signal, emulate: Option<HandlerId>, mode: ErrorMode, debug: int)
    requires Failure(RunStack(setup, behave).err).None?
    ensures NotMapped() == ErrObj(0, 405, "Method Not Allowed", "")
    ensures var s := Serve(setup, None, fin, behave, emulate, mode, debug);
            && s.trace.events == RanAll(RunStack(setup, behave).ran) + [Responded(NotMapped())]
            && !s.finished
            && s.trace.mode == ModeAfter(mode, RunStack(setup, behave).ran, emulate)
            && (s.trace.mode.DefaultResponder? ==> s.trace.written == Some(Reply(405, PlainText(if debug > 0 then "Method Not Allowed; " else "Method Not Allowed"))))
  {
    assert [] + RanAll(RunStack(setup, behave).ran) == RanAll(RunStack(setup, behave).ran);
    assert "Method Not Allowed" + "; " + "" == "Method Not Allowed; ";
  }

  /**
   * A halt (`false`) in the setup stack ends only that stack: routing still
   * happens, and the composed stack and the finally stack run.
   */
  lemma SetupHaltStillRoutes(setup: seq<HandlerId>, k: nat, stack: seq<HandlerId>, fin: seq<HandlerId>,
                             behave: HandlerId -> Signal, emulate: Option<HandlerId>, mode: ErrorMode, debug: int)
    requires k < |setup| && behave(setup[k]) == HaltFalse
    requires forall j :: 0 <= j < k ==> behave(setup[j]) == Continue
    requires AllGo(stack, behave) && AllGo(fin, behave)
    ensures Serve(setup, Some(stack), fin, behave, emulate, mode, debug)
            == Served(Trace(RanAll(setup[..k + 1]) + RanAll(stack) + RanAll(fin), None,
                            ModeAfter(mode, setup[..k + 1] + stack + fin, emulate)), true)
  {
    var t0 := Trace([], None, mode);
    StageHalts(t0, setup, behave, emulate, debug, k);
    var t1 := RanOn(t0, setup[..k + 1], emulate);
    StartEmpty(RanAll(setup[..k + 1]));
    StageAllGo(t1, stack, behave, emulate, debug);
    var t2 := RanOn(t1, stack, emulate);
    ConcludeAllGo(t2, None, fin, behave, emulate, debug);
    RanOnTwice(t0, setup[..k + 1], stack, emulate);
    RanOnTwice(t0, setup[..k + 1] + stack, fin, emulate);
    assert [] + RanAll(setup[..k + 1] + stack + fin) == RanAll(setup[..k + 1]) + RanAll(stack) + RanAll(fin);
  }

  /**
   * A halt in the composed stack stops it without calling any responder;
   * the finally stack still runs and the request completes.
   */
  lemma HaltCallsNoResponder(setup: seq<HandlerId>, stack: seq<HandlerId>, k: nat, fin: seq<HandlerId>,
                             behave: HandlerId -> Signal, emulate: Option<HandlerId>, mode: ErrorMode, debug: int)
    requires AllGo(setup, behave) && AllGo(fin, behave)
    requires k < |stack| && behave(stack[k]) == HaltFalse
    requires forall j :: 0 <= j < k ==> behave(stack[j]) == Continue
    ensures Serve(setup, Some(stack), fin, behave, emulate, mode, debug)
            == Served(Trace(RanAll(setup) + RanAll(stack[..k + 1]) + RanAll(fin), None,
                            ModeAfter(mode, setup + stack[..k + 1] + fin, emulate)), true)
  {
    var t0 := Trace([], None, mode);
    StageAllGo(t0, setup, behave, emulate, debug);
    var t1 := RanOn(t0, setup, emulate);
    StartEmpty(RanAll(setup));
    StageHalts(t1, stack, behave, emulate, debug, k);
    var t2 := RanOn(t1, stack[..k + 1], emulate);
    ConcludeAllGo(t2, None, fin, behave, emulate, debug);
    RanOnTwice(t0, setup, stack[..k + 1], emulate);
    RanOnTwice(t0, setup + stack[..k + 1], fin, emulate);
    assert [] + RanAll(setup + stack[..k + 1] + fin) == RanAll(setup) + RanAll(stack[..k + 1]) + RanAll(fin);
  }

  /**
   * An error in the composed stack of an application without the restify
   * emulation, with the built-in responder: the responder is called when
   * the stack stops and again when the request ends, after the finally
   * stack; only the first call writes a reply.
   */
  lemma StackErrorRespondsTwice(setup: seq<HandlerId>, stack: seq<HandlerId>, k: nat, fin: seq<HandlerId>,
                                behave: HandlerId -> Signal, e: ErrValue, debug: int)
    requires AllGo(setup, behave) && AllGo(fin, behave)
    requires k < |stack| && behave(stack[k]) == Raise(e) && Truthy(e) && e != ErrText(HaltText)
    requires forall j :: 0 <= j < k ==> behave(stack[j]) == Continue
    ensures Serve(setup, Some(stack), fin, behave, None, DefaultResponder, debug)
            == Served(Trace(RanAll(setup) + RanAll(stack[..k + 1]) + [Responded(e)] + RanAll(fin) + [Responded(e)],
                            Some(ErrorReply(e, debug)), DefaultResponder), true)
  {
    var t0 := Trace([], None, DefaultResponder);
    StageAllGo(t0, setup, behave, None, debug);
    StartEmpty(RanAll(setup));
    var t1 := RanOn(t0, setup, None);
    StageStops(t1, stack, behave, None, debug, k, e);
    var t2 := Trace(RanAll(setup) + RanAll(stack[..k + 1]) + [Responded(e)], Some(ErrorReply(e, debug)), DefaultResponder);
    ConcludeAllGo(t2, Some(e), fin, behave, None, debug);
  }

  /**
   * An error in the setup stack, before the emulation handler has had a
   * chance to run, skips routing: the finally stack runs and the request
   * ends, the built-in responder being called twice.
   */
  lemma SetupErrorSkipsRouting(setup: seq<HandlerId>, k: nat, route: Option<seq<HandlerId>>, fin: seq<HandlerId>,
                               behave: HandlerId -> Signal, emulate: Option<HandlerId>, e: ErrValue, debug: int)
    requires AllGo(fin, behave)
    requires k < |setup| && behave(setup[k]) == Raise(e) && Truthy(e) && e != ErrText(HaltText)
    requires forall j :: 0 <= j < k ==> behave(setup[j]) == Continue
    requires emulate.Some? ==> emulate.value !in setup[..k + 1] && emulate.value !in fin
    ensures Serve(setup, route, fin, behave, emulate, DefaultResponder, debug)
            == Served(Trace(RanAll(setup[..k + 1]) + [Responded(e)] + RanAll(fin) + [Responded(e)],
                            Some(ErrorReply(e, debug)), DefaultResponder), true)
  {
    var t0 := Trace([], None, DefaultResponder);
    StageStops(t0, setup, behave, emulate, debug, k, e);
    StartEmpty(RanAll(setup[..k + 1]));
    var t1 := Trace(RanAll(setup[..k + 1]) + [Responded(e)], Some(ErrorReply(e, debug)), DefaultResponder);
    ConcludeAllGo(t1, Some(e), fin, behave, emulate, debug);
  }

  /**
   * Restify mode: the emulation handler heads `_before`, so once it has run
   * the restify responder answers, whatever responder was installed
   * before. An error later in the same stack gets the JSON reply, the
   * responder never calls back, and neither the finally stack nor the end
   * of the request is reached.
   */
  lemma EmulationInstallsRestifyResponder(setup: seq<HandlerId>, emu: HandlerId, rest: seq<HandlerId>, k: nat,
                                          fin: seq<HandlerId>, behave: HandlerId -> Signal, mode: ErrorMode,
                                          e: ErrValue, debug: int)
    requires AllGo(setup, behave) && behave(emu) == Continue
    requires k < |rest| && behave(rest[k]) == Raise(e) && Truthy(e) && e != ErrText(HaltText)
    requires forall j :: 0 <= j < k ==> behave(rest[j]) == Continue
    ensures Serve(setup, Some([emu] + rest), fin, behave, Some(emu), mode, debug)
            == Served(Trace(RanAll(setup) + RanAll([emu] + rest[..k + 1]) + [Responded(e)],
                            Some(RestifyReply(e)), RestifyResponder), false)
  {
    var t0 := Trace([], None, mode);
    StageAllGo(t0, setup, behave, Some(emu), debug);
    StartEmpty(RanAll(setup));
    var t1 := RanOn(t0, setup, Some(emu));
    EmulatedStageStalls(t1, emu, rest, k, behave, e, debug);
  }

  /** The stack step of the lemma above: the emulation handler, then the handlers up to the failing one. */
  lemma EmulatedStageStalls(t: Trace, emu: HandlerId, rest: seq<HandlerId>, k: nat,
                            behave: HandlerId -> Signal, e: ErrValue, debug: int)
    requires behave(emu) == Continue
    requires k < |rest| && behave(rest[k]) == Raise(e) && Truthy(e) && e != ErrText(HaltText)
    requires forall j :: 0 <= j < k ==> behave(rest[j]) == Continue
    ensures RunStage(t, [emu] + rest, behave, Some(emu), debug)
            == (RespondTo(Trace(t.events + RanAll([emu] + rest[..k + 1]), t.written, RestifyResponder), e, debug), Stalled)
  {
    var stack := [emu] + rest;
    assert stack[k + 1] == rest[k];
    forall j | 0 <= j < k + 1
      ensures behave(stack[j]) == Continue
    {
      if j > 0 { assert stack[j] == rest[j - 1]; }
    }
    StageStops(t, stack, behave, Some(emu), debug, k + 1, e);
    assert stack[..k + 2] == [emu] + rest[..k + 1];
    assert emu in stack[..k + 2];
  }

  /** The first responder call recorded in a sequence of events. */
  function FirstResponse(events: seq<Event>): (r: Option<ErrValue>)
    ensures r.None? <==> forall j :: 0 <= j < |events| ==> events[j].Ran?
    ensures r.Some? ==> exists j :: 0 <= j < |events| && events[j] == Responded(r.value)
                                    && forall i :: 0 <= i < j ==> events[i].Ran?
  {
    if events == [] then None
    else if events[0].Responded? then Some(events[0].err)
    else
      var r := FirstResponse(events[1..]);
      if r.Some? then
        var j :| 0 <= j < |events[1..]| && events[1..][j] == Responded(r.value) && forall i :: 0 <= i < j ==> events[1..][i].Ran?;
        assert events[j + 1] == Responded(r.value);
        r
      else r
  }

  /**
   * With the built-in responder installed, the reply on the wire belongs to
   * the first responder call: it is written exactly when some call was made.
   */
  ghost predicate FirstWins(t: Trace, debug: int)
  {
    t.mode == DefaultResponder
    && t.written == (match FirstResponse(t.events) case None => None case Some(e) => Some(ErrorReply(e, debug)))
  }

  lemma {:induction false} FirstResponseAppend(a: seq<Event>, b: seq<Event>)
    ensures FirstResponse(a + b) == (if FirstResponse(a).Some? then FirstResponse(a) else FirstResponse(b))
  {
    if a == [] {
      assert a + b == b;
    } else {
      assert (a + b)[0] == a[0] && (a + b)[1..] == a[1..] + b;
      FirstResponseAppend(a[1..], b);
    }
  }

  lemma RespondKeepsFirstWins(t: Trace, err: ErrValue, debug: int)
    requires FirstWins(t, debug)
    ensures FirstWins(RespondTo(t, err, debug), debug)
  {
    FirstResponseAppend(t.events, [Responded(err)]);
    assert FirstResponse([Responded(err)]) == Some(err);
  }

  lemma RanKeepsFirstWins(t: Trace, hs: seq<HandlerId>, debug: int)
    requires FirstWins(t, debug)
    ensures FirstWins(RanOn(t, hs, None), debug)
  {
    FirstResponseAppend(t.events, RanAll(hs));
    assert FirstResponse(RanAll(hs)).None?;
  }

  lemma StageKeepsFirstWins(t: Trace, stack: seq<HandlerId>, behave: HandlerId -> Signal, debug: int)
    requires FirstWins(t, debug)
    ensures FirstWins(RunStage(t, stack, behave, None, debug).0, debug)
  {
    var r := RunStack(stack, behave);
    RanKeepsFirstWins(t, r.ran, debug);
    if Failure(r.err).Some? {
      RespondKeepsFirstWins(RanOn(t, r.ran, None), Failure(r.err).value, debug);
    }
  }

  lemma ConcludeKeepsFirstWins(t: Trace, err: Option<ErrValue>, fin: seq<HandlerId>, behave: HandlerId -> Signal, debug: int)
    requires FirstWins(t, debug)
    ensures FirstWins(Conclude(t, err, fin, behave, None, debug).trace, debug)
  {
    StageKeepsFirstWins(t, fin, behave, debug);
    var t2 := RunStage(t, fin, behave, None, debug).0;
    if err.Some? {
      RespondKeepsFirstWins(t2, err.value, debug);
    }
  }

  lemma RouteKeepsFirstWins(t: Trace, route: Option<seq<HandlerId>>, fin: seq<HandlerId>, behave: HandlerId -> Signal, debug: int)
    requires FirstWins(t, debug)
    ensures FirstWins(Route(t, route, fin, behave, None, debug).trace, debug)
  {
    if route.None? {
      RespondKeepsFirstWins(t, NotMapped(), debug);
    } else {
      StageKeepsFirstWins(t, route.value, behave, debug);
      var (t2, s2) := RunStage(t, route.value, behave, None, debug);
      if s2.Proceed? {
        ConcludeKeepsFirstWins(t2, s2.err, fin, behave, debug);
      }
    }
  }

  /**
   * Whatever the handlers do, in an application without the restify
   * emulation and with the built-in responder, the reply written is the
   * one for the first error the responder was called with, and nothing is
   * written when it was never called.
   */
  lemma ReplyIsFirstError(setup: seq<HandlerId>, route: Option<seq<HandlerId>>, fin: seq<HandlerId>,
                          behave: HandlerId -> Signal, debug: int)
    ensures FirstWins(Serve(setup, route, fin, behave, None, DefaultResponder, debug).trace, debug)
  {
    var t0 := Trace([], None, DefaultResponder);
    assert FirstWins(t0, debug);
    StageKeepsFirstWins(t0, setup, behave, debug);
    var (t1, s1) := RunStage(t0, setup, behave, None, debug);
    var served := Serve(setup, route, fin, behave, None, DefaultResponder, debug);
    if s1.Stalled? {
      assert served.trace == t1;
    } else if s1.err.Some? {
      ConcludeKeepsFirstWins(t1, s1.err, fin, behave, debug);
      assert served == Conclude(t1, s1.err, fin, behave, None, debug);
    } else {
      RouteKeepsFirstWins(t1, route, fin, behave, debug);
      assert served == Route(t1, route, fin, behave, None, debug);
    }
  }

  /** A custom responder writes nothing itself, so without the emulation the model's reply stays empty. */
  lemma CustomWritesNothing(setup: seq<HandlerId>, route: Option<seq<HandlerId>>, fin: seq<HandlerId>,
                            behave: HandlerId -> Signal, callsBack: bool, debug: int)
    ensures Serve(setup, route, fin, behave, None, CustomResponder(callsBack), debug).trace.written.None?
  {
    var t0 := Trace([], None, CustomResponder(callsBack));
    StageKeepsWritten(t0, setup, behave, debug);
    var (t1, s1) := RunStage(t0, setup, behave, None, debug);
    if s1.Proceed? && s1.err.Some? {
      ConcludeKeepsWritten(t1, s1.err, fin, behave, debug);
    } else if s1.Proceed? {
      RouteKeepsWritten(t1, route, fin, behave, debug);
    }
  }

  lemma StageKeepsWritten(t: Trace, stack: seq<HandlerId>, behave: HandlerId -> Signal, debug: int)
    requires t.mode.CustomResponder?
    ensures var t2 := RunStage(t, stack, behave, None, debug).0;
            t2.written == t.written && t2.mode == t.mode
  {
    var r := RunStack(stack, behave);
    var t1 := RanOn(t, r.ran, None);
    if Failure(r.err).Some? {
      assert RunStage(t, stack, behave, None, debug).0 == RespondTo(t1, Failure(r.err).value, debug);
    }
  }

  lemma ConcludeKeepsWritten(t: Trace, err: Option<ErrValue>, fin: seq<HandlerId>, behave: HandlerId -> Signal, debug: int)
    requires t.mode.CustomResponder?
    ensures Conclude(t, err, fin, behave, None, debug).trace.written == t.written
  {
    StageKeepsWritten(t, fin, behave, debug);
  }

  lemma RouteKeepsWritten(t: Trace, route: Option<seq<HandlerId>>, fin: seq<HandlerId>, behave: HandlerId -> Signal, debug: int)
    requires t.mode.CustomResponder?
    ensures Route(t, route, fin, behave, None, debug).trace.written == t.written
  {
    if route.Some? {
      StageKeepsWritten(t, route.value, behave, debug);
      var (t2, s2) := RunStage(t, route.value, behave, None, debug);
      if s2.Proceed? {
        ConcludeKeepsWritten(t2, s2.err, fin, behave, debug);
      }
    }
  }

  /**
   * A custom responder that never calls back stalls the request at the
   * first stack error: nothing after it runs and the completion callback
   * is not reached.
   */
  lemma SilentResponderStalls(setup: seq<HandlerId>, stack: seq<HandlerId>, k: nat, fin: seq<HandlerId>,
                              behave: HandlerId -> Signal, e: ErrValue, debug: int)
    requires AllGo(setup, behave)
    requires k < |stack| && behave(stack[k]) == Raise(e) && Truthy(e) && e != ErrText(HaltText)
    requires forall j :: 0 <= j < k ==> behave(stack[j]) == Continue
    ensures Serve(setup, Some(stack), fin, behave, None, CustomResponder(false), debug)
            == Served(Trace(RanAll(setup) + RanAll(stack[..k + 1]) + [Responded(e)], None, CustomResponder(false)), false)
  {
    StageAllGo(Trace([], None, CustomResponder(false)), setup, behave, None, debug);
    StopsAtFirst(stack, behave, k);
    assert [] + RanAll(setup) == RanAll(setup);
  }

  // ---------------------------------------------------------------------
  // concatArrays and the composed stack

  /**
   * An argument of `concatArrays`: its elements and its `len` property,
   * 0 when absent (JavaScript's falsy value for it).
   */
  datatype ArrayArg = ArrayArg(items: seq<HandlerId>, len: nat)

  /** `arr.len || arr.length`. */
  function Count(a: ArrayArg): nat
  {
    if a.len != 0 then a.len else |a.items|
  }

  predicate InRange(a: ArrayArg)
  {
    a.len <= |a.items|
  }

  /** The first `len || length` elements of each argument, in argument order. */
  function Flatten(args: seq<ArrayArg>): seq<HandlerId>
    requires forall i :: 0 <= i < |args| ==> InRange(args[i])
  {
    if args == [] then []
    else
      var last := args[|args| - 1];
      assert InRange(last);
      Flatten(args[..|args| - 1]) + last.items[..Count(last)]
  }

  /** `concatArrays(...)`: nested loops pushing element by element onto `dst`. */
  method ConcatArrays(args: seq<ArrayArg>) returns (dst: seq<HandlerId>)
    requires forall i :: 0 <= i < |args| ==> InRange(args[i])
    ensures dst == Flatten(args)
  {
    dst := [];
    var i := 0;
    while i < |args|
      invariant 0 <= i <= |args|
      invariant dst == Flatten(args[..i])
    {
      var arr := args[i];
      var len := if arr.len != 0 then arr.len else |arr.items|;
      ghost var base := dst;
      var j := 0;
      while j < len
        invariant 0 <= j <= len
        invariant dst == base + arr.items[..j]
      {
        dst := dst + [arr.items[j]];
        j := j + 1;
        assert arr.items[..j] == arr.items[..j - 1] + [arr.items[j - 1]];
      }
      assert args[..i + 1][..i] == args[..i];
      i := i + 1;
    }
    assert args[..i] == args;
  }

  /** The argument list dispatch gives `concatArrays`: `_before` with `len` set to `steps`, the handlers, `_after`. */
  function StackArgs(before: seq<HandlerId>, steps: nat, handlers: seq<HandlerId>, after: seq<HandlerId>): seq<ArrayArg>
  {
    [ArrayArg(before, steps), ArrayArg(handlers, 0), ArrayArg(after, 0)]
  }

  /**
   * The composed stack is `_before[0..steps)`, then the handlers, then
   * `_after`; all of `_before` when `steps` is 0.
   */
  lemma ComposedStack(before: seq<HandlerId>, steps: nat, handlers: seq<HandlerId>, after: seq<HandlerId>)
    requires steps <= |before|
    ensures Flatten(StackArgs(before, steps, handlers, after))
            == (if steps == 0 then before else before[..steps]) + handlers + after
  {
    var args := StackArgs(before, steps, handlers, after);
    assert args[..2][..1] == args[..1] && args[..1][..0] == [];
    assert args[..2] == args[..|args| - 1] && args[..1] == args[..2][..1];
    assert Flatten(args[..1]) == before[..Count(args[0])];
    assert handlers[..|handlers|] == handlers && after[..|after|] == after;
    assert before[..|before|] == before;
  }

  /**
   * Middleware added to `_before` after a route was registered is not in
   * that route's stack, unless `steps` was 0: then `len || length` falls
   * back to the whole, grown, list.
   */
  lemma FrozenSteps(before: seq<HandlerId>, more: seq<HandlerId>, handlers: seq<HandlerId>, after: seq<HandlerId>)
    ensures |before| > 0 ==> Flatten(StackArgs(before + more, |before|, handlers, after)) == before + handlers + after
    ensures |before| == 0 ==> Flatten(StackArgs(before + more, |before|, handlers, after)) == more + handlers + after
  {
    ComposedStack(before + more, |before|, handlers, after);
    assert (before + more)[..|before|] == before;
    if |before| == 0 {
      assert before + more == more;
    }
  }
}
