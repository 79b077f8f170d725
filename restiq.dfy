/**
 * The application object of lib/restiq.js: its four stage lists (setup,
 * use, after and finally), its three route matchers (GET, POST, and all
 * other methods under a synthetic `METHOD::path` key), step and route
 * registration, method-aware route lookup, and the per-request dispatch
 * that composes, caches and runs a route's middleware stack.
 */
module Restiq {
  import opened Common
  import opened JsStrings
  import opened QRoute
  import opened Pipeline
  import opened RLib

  // ---------------------------------------------------------------------
  // addStep

  datatype Location = SetupStage | UseStage | AfterStage | FinallyStage

  /** `if (!where) where = 'use'`: the empty string stands for a missing location. */
  function DefaultWhere(where: string): string
  {
    if where == "" then "use" else where
  }

  /** The `switch (where)` of `addStep`. */
  function LocationOf(where: string): (r: Option<Location>)
    ensures r == Some(SetupStage) <==> where == "setup"
    ensures r == Some(UseStage) <==> where == "use"
    ensures r == Some(AfterStage) <==> where == "after"
    ensures r == Some(FinallyStage) <==> where == "finally"
  {
    if where == "setup" then Some(SetupStage)
    else if where == "use" then Some(UseStage)
    else if where == "after" then Some(AfterStage)
    else if where == "finally" then Some(FinallyStage)
    else None
  }

  /** What `addStep` may be given: a function, an array of such arguments, or anything else. */
  datatype StepArg = Fn(h: HandlerId) | List(items: seq<StepArg>) | NotFn

  /** The arguments `addStep` visits, in order: `Some(h)` for a function, `None` for a non-function. */
  function Leaves(f: StepArg): seq<Option<HandlerId>>
    decreases f
  {
    match f
    case Fn(h) => [Some(h)]
    case NotFn => [None]
    case List(items) => LeavesOf(items)
  }

  function LeavesOf(items: seq<StepArg>): seq<Option<HandlerId>>
    decreases items
  {
    if items == [] then [] else Leaves(items[0]) + LeavesOf(items[1..])
  }

  lemma {:induction false} LeavesOfAppend(items: seq<StepArg>, x: StepArg)
    ensures LeavesOf(items + [x]) == LeavesOf(items) + Leaves(x)
  {
    if items == [] {
      assert [] + [x] == [x];
      assert LeavesOf([x]) == Leaves(x) + LeavesOf([]);
    } else {
      assert (items + [x])[0] == items[0] && (items + [x])[1..] == items[1..] + [x];
      LeavesOfAppend(items[1..], x);
    }
  }

  const NotFunctionMessage: string := "middleware handler must be a function: "
  const UnknownLocationMessage: string := ": unknown middleware step location"

  /**
   * What `addStep` does with its visited arguments: each function is pushed
   * onto the location's stage; the first non-function throws, and so does
   * the first function when the location is unknown; nothing after a
   * throw is pushed.
   */
  function Plan(leaves: seq<Option<HandlerId>>, loc: Option<Location>, where: string): (r: (seq<HandlerId>, Option<string>))
    ensures loc.None? ==> r.0 == []
    ensures leaves == [] ==> r == ([], None)
  {
    if leaves == [] then ([], None)
    else if leaves[0].None? then ([], Some(NotFunctionMessage))
    else if loc.None? then ([], Some(where + UnknownLocationMessage))
    else
      var rest := Plan(leaves[1..], loc, where);
      ([leaves[0].value] + rest.0, rest.1)
  }

  /** Visiting two groups of arguments in turn: the second runs only if the first did not throw. */
  lemma {:induction false} PlanAppend(a: seq<Option<HandlerId>>, b: seq<Option<HandlerId>>, loc: Option<Location>, where: string)
    ensures Plan(a + b, loc, where)
            == (if Plan(a, loc, where).1.Some? then Plan(a, loc, where)
                else (Plan(a, loc, where).0 + Plan(b, loc, where).0, Plan(b, loc, where).1))
  {
    if a == [] {
      assert a + b == b;
      assert [] + Plan(b, loc, where).0 == Plan(b, loc, where).0;
    } else {
      assert (a + b)[0] == a[0] && (a + b)[1..] == a[1..] + b;
      PlanAppend(a[1..], b, loc, where);
      if a[0].Some? && loc.Some? {
        var x, y := Plan(a[1..], loc, where).0, Plan(b, loc, where).0;
        assert [a[0].value] + (x + y) == ([a[0].value] + x) + y;
      }
    }
  }

  /** With a known location and only functions, every one is pushed, in order, and nothing throws. */
  lemma {:induction false} PlanAllFunctions(leaves: seq<Option<HandlerId>>, loc: Option<Location>, where: string)
    requires loc.Some? && forall i :: 0 <= i < |leaves| ==> leaves[i].Some?
    ensures |Plan(leaves, loc, where).0| == |leaves| && Plan(leaves, loc, where).1.None?
    ensures forall i :: 0 <= i < |leaves| ==> Plan(leaves, loc, where).0[i] == leaves[i].value
  {
    if leaves != [] {
      PlanAllFunctions(leaves[1..], loc, where);
      var rest := Plan(leaves[1..], loc, where).0;
      assert forall i :: 1 <= i < |leaves| ==> ([leaves[0].value] + rest)[i] == rest[i - 1];
    }
  }

  /** The functions before the first non-function are pushed, and then it throws. */
  lemma {:induction false} PlanStopsAtNonFunction(leaves: seq<Option<HandlerId>>, k: nat, loc: Option<Location>, where: string)
    requires loc.Some? && k < |leaves| && leaves[k].None?
    requires forall i :: 0 <= i < k ==> leaves[i].Some?
    ensures Plan(leaves, loc, where).1 == Some(NotFunctionMessage)
    ensures |Plan(leaves, loc, where).0| == k
  {
    if k > 0 {
      PlanStopsAtNonFunction(leaves[1..], k - 1, loc, where);
    }
  }

  /** An unknown location pushes nothing, and throws unless there was nothing to add. */
  lemma PlanUnknownLocation(leaves: seq<Option<HandlerId>>, where: string)
    requires leaves != []
    ensures Plan(leaves, None, where).0 == []
    ensures Plan(leaves, None, where).1 == Some(if leaves[0].None? then NotFunctionMessage else where + UnknownLocationMessage)
  {
  }

  /** The four stage lists. */
  datatype Stages = Stages(setup: seq<HandlerId>, before: seq<HandlerId>, after: seq<HandlerId>, fin: seq<HandlerId>)

  /** Appending to the list a location names; the others unchanged. */
  function Push(s: Stages, loc: Option<Location>, hs: seq<HandlerId>): (r: Stages)
    ensures loc == Some(SetupStage) ==> r == s.(setup := s.setup + hs)
    ensures loc == Some(UseStage) ==> r == s.(before := s.before + hs)
    ensures loc == Some(AfterStage) ==> r == s.(after := s.after + hs)
    ensures loc == Some(FinallyStage) ==> r == s.(fin := s.fin + hs)
    ensures loc.None? ==> r == s
  {
    match loc
    case None => s
    case Some(SetupStage) => s.(setup := s.setup + hs)
    case Some(UseStage) => s.(before := s.before + hs)
    case Some(AfterStage) => s.(after := s.after + hs)
    case Some(FinallyStage) => s.(fin := s.fin + hs)
  }

  lemma PushTwice(s: Stages, loc: Option<Location>, a: seq<HandlerId>, b: seq<HandlerId>)
    ensures Push(Push(s, loc, a), loc, b) == Push(s, loc, a + b)
  {
    match loc
    case None =>
    case Some(SetupStage) => assert s.setup + a + b == s.setup + (a + b);
    case Some(UseStage) => assert s.before + a + b == s.before + (a + b);
    case Some(AfterStage) => assert s.after + a + b == s.after + (a + b);
    case Some(FinallyStage) => assert s.fin + a + b == s.fin + (a + b);
  }

  // ---------------------------------------------------------------------
  // routes

  /** `path` as `addRoute` receives it: a string or an options object with a `path` field. */
  datatype PathArg = PathText(text: string) | PathObject(path: string)

  /** `handlers`: an array, or a lone handler that gets wrapped in one. */
  datatype HandlerArg = One(h: HandlerId) | Many(hs: seq<HandlerId>)

  function PathOf(p: PathArg): string
  {
    match p
    case PathText(s) => s
    case PathObject(s) => s
  }

  function HandlersOf(h: HandlerArg): (hs: seq<HandlerId>)
    ensures h.One? ==> hs == [h.h]
  {
    match h
    case One(x) => [x]
    case Many(xs) => xs
  }

  /** The key a route is stored under: the path for GET and POST, `METHOD::path` otherwise. */
  function RouteKey(verb: string, path: string): string
  {
    if verb == "GET" || verb == "POST" then path else ToUpper(verb) + "::" + path
  }

  /** `s.slice(s.indexOf('::') + 2)`: what `mapRoute` keeps of an `other` path or name. */
  function StripMethod(s: string): string
  {
    JsSliceFrom(s, IndexOf(s, "::") + 2)
  }

  /** Stripping undoes the prefix of a method name that has no colon in it. */
  lemma StripMethodKey(verb: string, path: string)
    requires ':' !in verb
    ensures StripMethod(verb + "::" + path) == path
  {
    var s := verb + "::" + path;
    assert s[|verb|..|verb| + 2] == "::";
    assert OccursAt(s, "::", |verb|);
    forall k | 0 <= k < |verb|
      ensures !OccursAt(s, "::", k)
    {
      assert s[k] == verb[k];
    }
    assert IndexOf(s, "::") == |verb|;
    assert s[|verb| + 2..] == path;
  }

  /** `mapRoute` on the `other` matcher: the match with its path and name stripped. */
  function Unprefixed(m: Option<Match>): (r: Option<Match>)
    ensures r.Some? <==> m.Some?
    ensures r.Some? ==> r.value.route == m.value.route && r.value.vars == m.value.vars && r.value.handlers == m.value.handlers
  {
    match m
    case None => None
    case Some(x) => Some(x.(path := StripMethod(x.path), name := StripMethod(x.name)))
  }

  /** The composed stack of a route, once built; with `steps` counted in `_before`. */
  function StackFor(cached: Option<seq<HandlerId>>, steps: nat, handlers: seq<HandlerId>,
                    before: seq<HandlerId>, after: seq<HandlerId>): (r: seq<HandlerId>)
    requires steps <= |before|
    ensures cached.Some? ==> r == cached.value
    ensures cached.None? ==> r == (if steps == 0 then before else before[..steps]) + handlers + after
  {
    ComposedStack(before, steps, handlers, after);
    if cached.Some? then cached.value else Flatten(StackArgs(before, steps, handlers, after))
  }

  // ---------------------------------------------------------------------
  // the application

  class App {
    var setup: seq<HandlerId>
    var before: seq<HandlerId>
    var after: seq<HandlerId>
    var fin: seq<HandlerId>
    const routesGet: Router
    const routesPost: Router
    const routesOther: Router
    var errorMode: ErrorMode
    const debug: int
    /** The `emulateRestify` handler heading `_before` in restify mode, `None` otherwise. */
    const emulation: Option<HandlerId>

    ghost function RouteRecords(): set<RouteRecord>
      reads this, routesGet, routesPost, routesOther
    {
      routesGet.Records() + routesPost.Records() + routesOther.Records()
    }

    ghost predicate Valid()
      reads this, routesGet, routesPost, routesOther
    {
      routesGet != routesPost && routesGet != routesOther && routesPost != routesOther
      && routesGet.Valid() && routesPost.Valid() && routesOther.Valid()
      && forall r | r in RouteRecords() :: r.steps <= |before|
    }

    function StageLists(): Stages
      reads this
    {
      Stages(setup, before, after, fin)
    }

    /**
     * `new Restiq(opts)`: empty stages and matchers, the built-in error
     * responder; in restify mode `emulateRestify` (here the handler
     * `emulate`) is the first `use` step, and installs the restify
     * responder whenever it runs.
     */
    constructor (restify: bool, debug: int, emulate: HandlerId)
      ensures Valid() && fresh(routesGet) && fresh(routesPost) && fresh(routesOther)
      ensures setup == [] && after == [] && fin == [] && before == (if restify then [emulate] else [])
      ensures routesGet.literals == map[] && routesGet.patterns == []
      ensures routesPost.literals == map[] && routesPost.patterns == []
      ensures routesOther.literals == map[] && routesOther.patterns == []
      ensures errorMode == DefaultResponder && this.debug == debug && emulation == (if restify then Some(emulate) else None)
    {
      setup := [];
      before := [];
      routesGet := new Router();
      routesPost := new Router();
      routesOther := new Router();
      after := [];
      fin := [];
      errorMode := DefaultResponder;
      this.debug := debug;
      emulation := if restify then Some(emulate) else None;
      new;
      if restify {
        before := before + [emulate];
      }
    }

    method SetErrorHandler(mode: ErrorMode)
      requires Valid()
      modifies this
      ensures Valid() && errorMode == mode && StageLists() == old(StageLists())
    {
      errorMode := mode;
    }

    /**
     * `addStep(func, where)`: the visited functions go onto one stage list
     * as `Plan` says; the other lists, the matchers and the routes are
     * untouched.
     */
    method AddStep(func: StepArg, where: string) returns (thrown: Option<string>)
      requires Valid()
      modifies this
      ensures Valid() && errorMode == old(errorMode)
      ensures var w := DefaultWhere(where);
              var p := Plan(Leaves(func), LocationOf(w), w);
              StageLists() == Push(old(StageLists()), LocationOf(w), p.0) && thrown == p.1
      decreases func, 1
    {
      var w := if where == "" then "use" else where;
      var loc := LocationOf(w);
      match func {
        case List(items) =>
          thrown := AddEach(items, loc, w);
        case NotFn =>
          thrown := Some(NotFunctionMessage);
        case Fn(h) =>
          thrown := AddHandler(h, loc, w);
      }
    }

    /** `addStep` over the elements of an array argument, in order, until one throws. */
    method AddEach(items: seq<StepArg>, loc: Option<Location>, w: string) returns (thrown: Option<string>)
      requires Valid() && w != "" && loc == LocationOf(w)
      modifies this
      ensures Valid() && errorMode == old(errorMode)
      ensures var p := Plan(LeavesOf(items), loc, w);
              StageLists() == Push(old(StageLists()), loc, p.0) && thrown == p.1
      decreases List(items), 0
    {
      thrown := None;
      var i := 0;
      while i < |items| && thrown.None?
        invariant 0 <= i <= |items| && Valid() && errorMode == old(errorMode)
        invariant var p := Plan(LeavesOf(items[..i]), loc, w);
                  StageLists() == Push(old(StageLists()), loc, p.0) && thrown == p.1
        invariant thrown.Some? ==> Plan(LeavesOf(items), loc, w) == Plan(LeavesOf(items[..i]), loc, w)
      {
        ghost var p0 := Plan(LeavesOf(items[..i]), loc, w);
        assert items[i] in items;
        assert DefaultWhere(w) == w;
        assert items[..i + 1] == items[..i] + [items[i]];
        LeavesOfAppend(items[..i], items[i]);
        PlanAppend(LeavesOf(items[..i]), Leaves(items[i]), loc, w);
        PushTwice(old(StageLists()), loc, p0.0, Plan(Leaves(items[i]), loc, w).0);
        assert items == items[..i + 1] + items[i + 1..];
        LeavesOfAppendAll(items[..i + 1], items[i + 1..]);
        PlanAppend(LeavesOf(items[..i + 1]), LeavesOf(items[i + 1..]), loc, w);
        thrown := AddStep(items[i], w);
        i := i + 1;
      }
      if thrown.None? {
        assert items[..i] == items;
      }
    }

    /** One function argument of `addStep`: pushed onto the stage `loc` names, or thrown at when it names none. */
    method AddHandler(h: HandlerId, loc: Option<Location>, w: string) returns (thrown: Option<string>)
      requires Valid()
      modifies this
      ensures Valid() && errorMode == old(errorMode)
      ensures var p := Plan([Some(h)], loc, w);
              StageLists() == Push(old(StageLists()), loc, p.0) && thrown == p.1
    {
      match loc {
        case None => thrown := Some(w + UnknownLocationMessage);
        case Some(SetupStage) => setup := setup + [h]; thrown := None;
        case Some(UseStage) => before := before + [h]; thrown := None;
        case Some(AfterStage) => after := after + [h]; thrown := None;
        case Some(FinallyStage) => fin := fin + [h]; thrown := None;
      }
    }

    /** `pre(func)`: a setup step. */
    method Pre(func: StepArg) returns (thrown: Option<string>)
      requires Valid()
      modifies this
      ensures Valid() && errorMode == old(errorMode)
      ensures var p := Plan(Leaves(func), Some(SetupStage), "setup");
              StageLists() == old(StageLists()).(setup := old(setup) + p.0) && thrown == p.1
    {
      thrown := AddStep(func, "setup");
    }

    /** `use(func)`: a step before the route's handlers. */
    method Use(func: StepArg) returns (thrown: Option<string>)
      requires Valid()
      modifies this
      ensures Valid() && errorMode == old(errorMode)
      ensures var p := Plan(Leaves(func), Some(UseStage), "use");
              StageLists() == old(StageLists()).(before := old(before) + p.0) && thrown == p.1
    {
      thrown := AddStep(func, "use");
    }

    /** `finally(func)`: a teardown step. */
    method Finally(func: StepArg) returns (thrown: Option<string>)
      requires Valid()
      modifies this
      ensures Valid() && errorMode == old(errorMode)
      ensures var p := Plan(Leaves(func), Some(FinallyStage), "finally");
              StageLists() == old(StageLists()).(fin := old(fin) + p.0) && thrown == p.1
    {
      thrown := AddStep(func, "finally");
    }

    /** The matcher a method's routes live in (the method already upper-cased). */
    function RouterFor(verb: string): Router
    {
      if verb == "GET" then routesGet else if verb == "POST" then routesPost else routesOther
    }

    /**
     * One matcher's `addRoute`, followed by `info.steps = this._before.length`.
     */
    method AddToMatcher(q: Router, key: string, hs: seq<HandlerId>) returns (info: RouteRecord)
      requires Valid() && (q == routesGet || q == routesPost || q == routesOther)
      modifies q
      ensures Valid() && fresh(info)
      ensures info.name == key && info.handlers == hs && info.steps == |before| && info.stack == None
      ensures Registered(info, old(q.literals), old(q.patterns), q.literals, q.patterns)
    {
      info := q.AddRoute(key, hs, |before|);
      RecordsAfterAdd(old(q.literals), old(q.patterns), q.literals, q.patterns, info, key);
    }

    /**
     * `addRoute(method, path, handlers)`: the record goes into the matcher
     * for the upper-cased method under `RouteKey`, and remembers the
     * current length of `_before` as its `steps`. The record is returned.
     */
    method AddRoute(verb: string, path: PathArg, handlers: HandlerArg) returns (info: RouteRecord)
      requires Valid()
      modifies RouterFor(ToUpper(verb))
      ensures Valid() && fresh(info)
      ensures info.name == RouteKey(ToUpper(verb), PathOf(path)) && info.handlers == HandlersOf(handlers)
      ensures info.steps == |before| && info.stack == None
      ensures var q := RouterFor(ToUpper(verb));
              Registered(info, old(q.literals), old(q.patterns), q.literals, q.patterns)
    {
      var m := ToUpper(verb);
      var hs := match handlers case One(h) => [h] case Many(xs) => xs;
      var p := match path case PathText(s) => s case PathObject(s) => s;
      if m == "GET" {
        info := AddToMatcher(routesGet, p, hs);
      } else if m == "POST" {
        info := AddToMatcher(routesPost, p, hs);
      } else {
        UpperIdempotent(verb);
        info := AddToMatcher(routesOther, ToUpper(m) + "::" + p, hs);
      }
    }

    /** `get(path, fn...)`: every argument after the path is a handler. */
    method Get(path: PathArg, handlers: seq<HandlerId>) returns (info: RouteRecord)
      requires Valid()
      modifies routesGet
      ensures Valid() && fresh(info) && info.name == PathOf(path) && info.handlers == handlers
      ensures info.steps == |before| && info.stack == None
      ensures Registered(info, old(routesGet.literals), old(routesGet.patterns), routesGet.literals, routesGet.patterns)
    {
      assert ToUpper("GET") == "GET";
      info := AddRoute("GET", path, Many(handlers));
    }

    method Put(path: PathArg, handlers: seq<HandlerId>) returns (info: RouteRecord)
      requires Valid()
      modifies routesOther
      ensures Valid() && fresh(info) && info.name == "PUT::" + PathOf(path) && info.handlers == handlers
      ensures info.steps == |before| && info.stack == None
      ensures Registered(info, old(routesOther.literals), old(routesOther.patterns), routesOther.literals, routesOther.patterns)
    {
      assert ToUpper("PUT") == "PUT";
      info := AddRoute("PUT", path, Many(handlers));
    }

    method Post(path: PathArg, handlers: seq<HandlerId>) returns (info: RouteRecord)
      requires Valid()
      modifies routesPost
      ensures Valid() && fresh(info) && info.name == PathOf(path) && info.handlers == handlers
      ensures info.steps == |before| && info.stack == None
      ensures Registered(info, old(routesPost.literals), old(routesPost.patterns), routesPost.literals, routesPost.patterns)
    {
      assert ToUpper("POST") == "POST";
      info := AddRoute("POST", path, Many(handlers));
    }

    /** `del(path, fn...)`, also `delete`. */
    method Del(path: PathArg, handlers: seq<HandlerId>) returns (info: RouteRecord)
      requires Valid()
      modifies routesOther
      ensures Valid() && fresh(info) && info.name == "DELETE::" + PathOf(path) && info.handlers == handlers
      ensures info.steps == |before| && info.stack == None
      ensures Registered(info, old(routesOther.literals), old(routesOther.patterns), routesOther.literals, routesOther.patterns)
    {
      assert ToUpper("DELETE") == "DELETE";
      info := AddRoute("DELETE", path, Many(handlers));
    }

    /**
     * `mapRoute(method, url)`: GET and POST look up the URL; any other
     * method looks up `METHOD::url` in the third matcher and strips the
     * prefix from the match's path and name. A miss there is `None`.
     */
    ghost function RouteOf(verb: string, url: string): (r: Option<Match>)
      requires Valid()
      reads this, routesGet, routesPost, routesOther
      ensures r.Some? ==> r.value.route in RouteRecords() && r.value.route.steps <= |before|
    {
      if verb == "GET" then
        LookupRecord(routesGet.literals, routesGet.patterns, url);
        Lookup(routesGet.literals, routesGet.patterns, url)
      else if verb == "POST" then
        LookupRecord(routesPost.literals, routesPost.patterns, url);
        Lookup(routesPost.literals, routesPost.patterns, url)
      else
        LookupRecord(routesOther.literals, routesOther.patterns, ToUpper(verb) + "::" + url);
        Unprefixed(Lookup(routesOther.literals, routesOther.patterns, ToUpper(verb) + "::" + url))
    }

    method MapRoute(verb: string, url: string) returns (m: Option<Match>)
      requires Valid()
      ensures m == RouteOf(verb, url)
    {
      if verb == "GET" {
        m := routesGet.MapRoute(url);
      } else if verb == "POST" {
        m := routesPost.MapRoute(url);
      } else {
        var routeName := ToUpper(verb) + "::" + url;
        var route := routesOther.MapRoute(routeName);
        if route.None? {
          return None;
        }
        m := Some(route.value.(path := StripMethod(route.value.path), name := StripMethod(route.value.name)));
      }
    }

    /** The cached stack of a mapped route's record, `None` when unmapped or not yet built. */
    ghost function CachedOf(m: Option<Match>): Option<seq<HandlerId>>
      reads if m.Some? then {m.value.route} else {}
    {
      if m.Some? then m.value.route.stack else None
    }

    /** The stack dispatch runs for a route, given what its record has cached; `None` when unmapped. */
    ghost function StackOf(m: Option<Match>, cached: Option<seq<HandlerId>>): Option<seq<HandlerId>>
      requires m.Some? ==> m.value.route.steps <= |before|
      reads this
    {
      match m
      case None => None
      case Some(x) => Some(StackFor(cached, x.route.steps, x.route.handlers, before, after))
    }

    /** The record a request maps to, as a frame: the one record dispatch may update. */
    ghost function RoutedRecord(verb: string, url: string): set<RouteRecord>
      requires Valid()
      reads this, routesGet, routesPost, routesOther
    {
      match RouteOf(verb, url)
      case None => {}
      case Some(m) => {m.route}
    }

    /** Whether the setup stack lets the request go on to routing. */
    ghost predicate Routes(behave: HandlerId -> Signal)
      reads this
    {
      RunStage(Trace([], None, errorMode), setup, behave, emulation, debug).1 == Proceed(None)
    }

    /**
     * The composed stack of a route: the cached one, or `concatArrays` of
     * `_before` up to `steps`, the handlers and `_after`, which is then
     * cached in the record.
     */
    method CacheStack(route: RouteRecord) returns (stack: seq<HandlerId>)
      requires route.steps <= |before|
      modifies route
      ensures route.stack == Some(stack)
      ensures stack == StackFor(old(route.stack), route.steps, route.handlers, before, after)
    {
      if route.stack.Some? {
        stack := route.stack.value;
      } else {
        stack := ConcatArrays(StackArgs(before, route.steps, route.handlers, after));
        route.stack := Some(stack);
      }
    }

    /**
     * What the dispatch closure does once the setup stack has called back
     * without an error: map the route (405 when unmapped), copy a pattern
     * route's captures into `params`, and run the route's stack and then
     * the finally stack.
     */
    method RouteRequest(req: Request, t: Trace, behave: HandlerId -> Signal) returns (served: Served)
      requires Valid() && req.params == map[]
      modifies req`params, RoutedRecord(req.httpMethod, req.url)
      ensures var m := old(RouteOf(req.httpMethod, req.url));
              var planned := StackOf(m, old(CachedOf(m)));
              && served == Route(t, planned, fin, behave, emulation, debug)
              && req.params == (if m.Some? && m.value.matchType == PattMatch then m.value.vars else map[])
              && (m.Some? ==> m.value.route.stack == planned)
    {
      var m := MapRoute(req.httpMethod, req.url);
      if m.None? {
        return Served(RespondTo(t, NotMapped(), debug), false);
      }
      ghost var cached := CachedOf(m);
      ghost var planned := StackOf(m, cached);
      assert m == old(RouteOf(req.httpMethod, req.url)) && cached == old(CachedOf(m));
      BindParams(req, m.value);
      var stack := CacheStack(m.value.route);
      assert planned == Some(stack) && planned == StackOf(m, cached);
      served := RunRoute(t, stack, behave);
    }

    /** `req._route = route`, then `parseRouteParams` for a pattern route. */
    method BindParams(req: Request, m: Match)
      requires req.params == map[]
      modifies req`params
      ensures req.params == (if m.matchType == PattMatch then m.vars else map[])
    {
      if m.matchType == PattMatch {
        var _ := ParseRouteParams(req, m.vars);
        assert map[] + m.vars == m.vars;
      }
    }

    /** The route's stack and then, once it calls back, the finally stack and the end. */
    method RunRoute(t: Trace, stack: seq<HandlerId>, behave: HandlerId -> Signal) returns (served: Served)
      ensures served == Route(t, Some(stack), fin, behave, emulation, debug)
    {
      var t2, e2 := RunStageWith(t, stack, behave, emulation, debug);
      if e2.Stalled? {
        return Served(t2, false);
      }
      served := ConcludeWith(t2, e2.err, fin, behave, emulation, debug);
    }

    /**
     * The dispatch closure of `createServer` for one request: `params`
     * starts empty and receives a pattern route's captures; the route's
     * composed stack is built on its first use and cached in the record;
     * the stacks run as `Serve` says, starting with the installed
     * responder. Only `params` and the mapped route's record change.
     */
    method ServeRequest(req: Request, behave: HandlerId -> Signal) returns (served: Served)
      requires Valid()
      modifies req`params, RoutedRecord(req.httpMethod, req.url)
      ensures var m := old(RouteOf(req.httpMethod, req.url));
              var planned := StackOf(m, old(CachedOf(m)));
              && served == Serve(setup, planned, fin, behave, emulation, errorMode, debug)
              && req.params == (if Routes(behave) && m.Some? && m.value.matchType == PattMatch then m.value.vars else map[])
              && (m.Some? ==> m.value.route.stack == if Routes(behave) then planned else old(CachedOf(m)))
    {
      ghost var m := RouteOf(req.httpMethod, req.url);
      ghost var cached := CachedOf(m);
      req.params := map[];
      var t, e := RunStageWith(Trace([], None, errorMode), setup, behave, emulation, debug);
      assert Routes(behave) <==> e == Proceed(None);
      if e.Stalled? {
        assert CachedOf(m) == cached;
        return Served(t, false);
      }
      if e.err.Some? {
        served := ConcludeWith(t, e.err, fin, behave, emulation, debug);
        assert CachedOf(m) == cached;
        return;
      }
      assert RouteOf(req.httpMethod, req.url) == m;
      served := RouteRequest(req, t, behave);
    }

    /**
     * A request served by `ServeRequest`; the responder installed at its end
     * (the restify one once the emulation handler has run) stays installed
     * for later requests.
     */
    method Dispatch(req: Request, behave: HandlerId -> Signal) returns (served: Served)
      requires Valid()
      modifies req`params, this`errorMode, RoutedRecord(req.httpMethod, req.url)
      ensures Valid()
      ensures var m := old(RouteOf(req.httpMethod, req.url));
              var planned := StackOf(m, old(CachedOf(m)));
              && served == Serve(setup, planned, fin, behave, emulation, old(errorMode), debug)
              && errorMode == served.trace.mode
              && req.params == (if old(Routes(behave)) && m.Some? && m.value.matchType == PattMatch then m.value.vars else map[])
              && (m.Some? ==> m.value.route.stack == if old(Routes(behave)) then planned else old(CachedOf(m)))
    {
      served := ServeRequest(req, behave);
      errorMode := served.trace.mode;
    }
  }

  /** After `addRoute`, a matcher's records are its old ones and perhaps the new record. */
  lemma RecordsAfterAdd(l0: map<string, RouteRecord>, p0: seq<RouteRecord>, l1: map<string, RouteRecord>, p1: seq<RouteRecord>,
                        info: RouteRecord, key: string)
    requires l1 == l0 || l1 == l0[key := info]
    requires p1 == p0 || p1 == p0 + [info]
    ensures l1.Values + (set r | r in p1) <= l0.Values + (set r | r in p0) + {info}
  {
  }

  lemma UpperIdempotent(s: string)
    ensures ToUpper(ToUpper(s)) == ToUpper(s)
  {
  }

  /**
   * A route added under a method other than GET and POST is found under
   * its own template name: the `METHOD::` prefix is stripped again.
   */
  lemma OtherRouteName(verb: string, path: string)
    requires ':' !in ToUpper(verb) && ToUpper(verb) != "GET" && ToUpper(verb) != "POST"
    ensures StripMethod(RouteKey(ToUpper(verb), path)) == path
  {
    assert ToUpper(ToUpper(verb)) == ToUpper(verb) by {
      UpperIdempotent(verb);
    }
    StripMethodKey(ToUpper(verb), path);
  }

  /** `addStep`'s arguments visited from nested arrays. */
  lemma {:induction false} LeavesOfAppendAll(a: seq<StepArg>, b: seq<StepArg>)
    ensures LeavesOf(a + b) == LeavesOf(a) + LeavesOf(b)
  {
    if a == [] {
      assert a + b == b;
    } else {
      assert (a + b)[0] == a[0] && (a + b)[1..] == a[1..] + b;
      LeavesOfAppendAll(a[1..], b);
    }
  }
}
