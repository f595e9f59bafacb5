/**
 * The exception registry: `handled_error` records, per exception class, a handler
 * that renders a raised exception with its own `into_json()`; `init_handlers` installs
 * every recorded pair into the web application.
 */
module Exceptions {
  import opened Wrappers

  /** An `APIException` subclass, identified by its class name. */
  type Kind = string

  /** A JSON response of shape `{"message": ...}` with its HTTP status. */
  datatype JsonResponse = JsonResponse(statusCode: int, message: string)

  /**
   * A raised `APIException`: its class, its `status_code` property and the response
   * its `into_json()` builds (each subclass decides the last two).
   */
  datatype ApiException = ApiException(kind: Kind, statusCode: int, response: JsonResponse)

  function IntoJson(exc: ApiException): JsonResponse {
    exc.response
  }

  /** The incoming request; the handlers do not look at it. */
  datatype Request = Request(path: string)

  /** One `inner_handler` closure; `serial` is its identity, as each decoration creates a new one. */
  datatype Handler = InnerHandler(serial: nat)

  /** Calling an `inner_handler`: it returns `exc.into_json()`. */
  function Invoke(handler: Handler, request: Request, exc: ApiException): JsonResponse {
    IntoJson(exc)
  }

  /** The module-level dictionary `__exception_handlers`. */
  class Registry {
    var handlers: map<Kind, Handler>
    /** How many `inner_handler` closures `handled_error` has created so far. */
    var closures: nat

    ghost predicate Valid()
      reads this
    {
      forall k :: k in handlers ==> handlers[k].serial < closures
    }

    constructor ()
      ensures Valid() && handlers == map[] && closures == 0
    {
      handlers := map[];
      closures := 0;
    }

    /**
     * `handled_error(kind)`: a new handler for `kind` replaces any earlier one, other
     * entries stay, and the class itself is returned so the decorator leaves it unchanged.
     */
    method HandledError(kind: Kind) returns (r: Kind)
      requires Valid()
      modifies this
      ensures Valid()
      ensures r == kind
      ensures handlers == old(handlers)[kind := InnerHandler(old(closures))]
      ensures closures == old(closures) + 1
      ensures forall k :: k in old(handlers) ==> handlers[kind] != old(handlers)[k]
    {
      handlers := handlers[kind := InnerHandler(closures)];
      closures := closures + 1;
      r := kind;
    }
  }

  /** The classes a log of installations covers. */
  function KindsOf(log: seq<(Kind, Handler)>): set<Kind> {
    if log == [] then {} else KindsOf(log[..|log| - 1]) + {log[|log| - 1].0}
  }

  lemma {:induction false} KindsOfMembers(log: seq<(Kind, Handler)>, kind: Kind)
    ensures kind in KindsOf(log) <==> exists j :: 0 <= j < |log| && log[j].0 == kind
  {
    if log != [] {
      var init := log[..|log| - 1];
      KindsOfMembers(init, kind);
      if kind in KindsOf(init) {
        var j :| 0 <= j < |init| && init[j].0 == kind;
        assert log[j].0 == kind;
      }
    }
  }

  /** The installation log has exactly one pair per registry entry, and nothing else. */
  ghost predicate InstallsExactly(log: seq<(Kind, Handler)>, handlers: map<Kind, Handler>) {
    && KindsOf(log) == handlers.Keys
    && (forall j :: 0 <= j < |log| ==> log[j].0 in handlers && handlers[log[j].0] == log[j].1)
    && (forall i, j :: 0 <= i < j < |log| ==> log[i].0 != log[j].0)
  }

  /**
   * The latest handler installed for `kind`: the framework keeps one handler per class
   * and a later `add_exception_handler` for the same class overrides an earlier one.
   */
  function FindHandler(installed: seq<(Kind, Handler)>, kind: Kind): (r: Option<Handler>)
    ensures r.None? <==> kind !in KindsOf(installed)
    ensures r.Some? ==> (kind, r.value) in installed
    ensures r.Some? ==> exists j :: 0 <= j < |installed| && installed[j] == (kind, r.value) &&
                          forall i :: j < i < |installed| ==> installed[i].0 != kind
  {
    if installed == [] then None
    else if installed[|installed| - 1].0 == kind then Some(installed[|installed| - 1].1)
    else FindHandler(installed[..|installed| - 1], kind)
  }

  /** The web application, reduced to its `add_exception_handler` calls in order. */
  class App {
    var exceptionHandlers: seq<(Kind, Handler)>

    constructor ()
      ensures exceptionHandlers == []
    {
      exceptionHandlers := [];
    }

    method AddExceptionHandler(kind: Kind, handler: Handler)
      modifies this
      ensures exceptionHandlers == old(exceptionHandlers) + [(kind, handler)]
    {
      exceptionHandlers := exceptionHandlers + [(kind, handler)];
    }

    /**
     * What the application answers when a handler raises `exc`: an installed handler's
     * result, which is `exc.into_json()`, or `None` when no handler was installed for
     * that exact class; what the framework does then is not modelled.
     */
    function Dispatch(request: Request, exc: ApiException): (r: Option<JsonResponse>)
      reads this
      ensures r.Some? <==> exc.kind in KindsOf(exceptionHandlers)
      ensures r.Some? ==> r.value == IntoJson(exc)
    {
      match FindHandler(exceptionHandlers, exc.kind)
      case Some(h) => Some(Invoke(h, request, exc))
      case None => None
    }
  }

  /**
   * What `init_handlers` has done after installing the entries of `done`: those
   * entries, each once, in `log`, while `remaining` still holds the others.
   */
  ghost predicate InstallProgress(log: seq<(Kind, Handler)>, done: map<Kind, Handler>,
                                  remaining: set<Kind>, handlers: map<Kind, Handler>)
  {
    && remaining == handlers.Keys - done.Keys
    && (forall k :: k in done ==> k in handlers && done[k] == handlers[k])
    && |log| == |done|
    && InstallsExactly(log, done)
  }

  /** Installing one more remaining entry keeps the progress predicate. */
  lemma InstallOneMore(log: seq<(Kind, Handler)>, done: map<Kind, Handler>,
                       remaining: set<Kind>, handlers: map<Kind, Handler>, kind: Kind)
    requires InstallProgress(log, done, remaining, handlers) && kind in remaining
    ensures InstallProgress(log + [(kind, handlers[kind])], done[kind := handlers[kind]],
                            remaining - {kind}, handlers)
  {
    assert (log + [(kind, handlers[kind])])[..|log|] == log;
    assert done[kind := handlers[kind]].Keys == done.Keys + {kind};
  }

  /** When nothing remains, the log installs exactly the registry. */
  lemma InstallDone(log: seq<(Kind, Handler)>, done: map<Kind, Handler>, handlers: map<Kind, Handler>)
    requires InstallProgress(log, done, {}, handlers)
    ensures InstallsExactly(log, handlers) && |log| == |handlers|
  {
  }

  /** `init_handlers(app)`: installs each registry entry once; the registry is not changed. */
  method InitHandlers(app: App, registry: Registry)
    modifies app
    ensures registry.handlers == old(registry.handlers)
    ensures |app.exceptionHandlers| == |old(app.exceptionHandlers)| + |registry.handlers|
    ensures app.exceptionHandlers[..|old(app.exceptionHandlers)|] == old(app.exceptionHandlers)
    ensures InstallsExactly(app.exceptionHandlers[|old(app.exceptionHandlers)|..], registry.handlers)
  {
    var handlers := registry.handlers;
    var remaining := handlers.Keys;
    ghost var done: map<Kind, Handler> := map[];
    ghost var log: seq<(Kind, Handler)> := [];
    while remaining != {}
      invariant InstallProgress(log, done, remaining, handlers)
      invariant app.exceptionHandlers == old(app.exceptionHandlers) + log
      decreases remaining
    {
      var kind :| kind in remaining;
      InstallOneMore(log, done, remaining, handlers, kind);
      app.AddExceptionHandler(kind, handlers[kind]);
      log := log + [(kind, handlers[kind])];
      done := done[kind := handlers[kind]];
      remaining := remaining - {kind};
    }
    InstallDone(log, done, handlers);
    assert app.exceptionHandlers[|old(app.exceptionHandlers)|..] == log;
  }

  /**
   * After `init_handlers` the application renders every registered class through its
   * handler, so the response is exactly `exc.into_json()`; other classes fall through to
   * whatever was installed before.
   */
  lemma {:induction false} DispatchAfterInit(before: seq<(Kind, Handler)>, log: seq<(Kind, Handler)>,
                                             handlers: map<Kind, Handler>, kind: Kind)
    requires InstallsExactly(log, handlers)
    ensures kind in handlers ==> FindHandler(before + log, kind) == Some(handlers[kind])
    ensures kind !in handlers ==> FindHandler(before + log, kind) == FindHandler(before, kind)
  {
    if log == [] {
      assert before + log == before;
    } else {
      var last := log[|log| - 1];
      var init := log[..|log| - 1];
      assert (before + log)[..|before + log| - 1] == before + init;
      if last.0 == kind {
        assert kind in handlers && handlers[kind] == last.1;
      } else {
        var rest := handlers - {last.0};
        assert log[..|log| - 1] == init;
        KindsOfMembers(init, last.0);
        assert InstallsExactly(init, rest);
        DispatchAfterInit(before, init, rest, kind);
      }
    }
  }
}
