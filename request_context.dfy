/** The request context object of the RSC server (src/framework/server.ts),
    updated in place. The async-local store is the `store` argument (null
    outside a request); each accessor is proved to change the object
    exactly as the matching function of ContextState says, and `RenderApp`
    is proved to answer as `ContextState.RenderAppSpec` says. */
module RequestContext {
  import opened Js
  import opened Http
  import C = ContextState

  /** `UNSAFE_Context`. */
  class Context {
    var stage: C.Stage
    var actionState: Option<map<string, Value>>
    var destroySession: bool
    var headers: seq<Entry>
    var redirect: Option<string>
    var session: map<string, Value>
    var status: int
    var statusText: Option<string>
    const url: UrlValue
    var waitList: seq<C.Pending>
    const env: Value

    /** The record `renderApp` builds: stage `action`, status 200, empty
        headers, nothing to wait for, no redirect. */
    constructor (env: Value, url: UrlValue, session: map<string, Value>)
      ensures Snapshot() == C.Initial(env, url, session)
      ensures stage == C.Action && status == 200 && headers == [] && waitList == [] && redirect.None?
    {
      this.stage := C.Action;
      this.actionState := None;
      this.destroySession := false;
      this.headers := [];
      this.redirect := None;
      this.session := session;
      this.status := 200;
      this.statusText := None;
      this.url := url;
      this.waitList := [];
      this.env := env;
    }

    function Snapshot(): C.State
      reads this
    {
      C.State(stage, actionState, destroySession, headers, redirect, session, status, statusText, url, waitList, env)
    }
  }

  function StateOf(store: Context?): Option<C.State>
    reads store
  {
    if store == null then None else Some(store.Snapshot())
  }

  function OutcomeOf<T>(r: Result<T>): Outcome {
    if r.Ok? then Done else Failed(r.thrown)
  }

  method SetActionState(store: Context?, key: string, v: Value) returns (r: Outcome)
    modifies store
    ensures var step := C.SetActionState(old(StateOf(store)), key, v);
      && r == OutcomeOf(step)
      && StateOf(store) == (if step.Ok? then Some(step.value) else old(StateOf(store)))
  {
    var c := C.Ctx(StateOf(store));
    if c.Throw? {
      return Failed(c.thrown);
    }
    store.actionState := Some(store.actionState.GetOr(map[])[key := v]);
    r := Done;
  }

  method SetCookieSession(store: Context?, key: string, v: Value) returns (r: Outcome)
    modifies store
    ensures var step := C.SetCookieSession(old(StateOf(store)), key, v);
      && r == OutcomeOf(step)
      && StateOf(store) == (if step.Ok? then Some(step.value) else old(StateOf(store)))
  {
    var c := C.CtxActionsOnly(StateOf(store));
    if c.Throw? {
      return Failed(c.thrown);
    }
    store.session := store.session[key := v];
    r := Done;
  }

  /** Sets the flag, then unsets the session's keys one at a time. */
  method DestroyCookieSession(store: Context?) returns (r: Outcome)
    modifies store
    ensures var step := C.DestroyCookieSession(old(StateOf(store)));
      && r == OutcomeOf(step)
      && StateOf(store) == (if step.Ok? then Some(step.value) else old(StateOf(store)))
  {
    var c := C.CtxActionsOnly(StateOf(store));
    if c.Throw? {
      return Failed(c.thrown);
    }
    store.destroySession := true;
    var keys := store.session.Keys;
    while keys != {}
      invariant store.session.Keys == keys
      invariant store.Snapshot() == old(store.Snapshot()).(destroySession := true, session := store.session)
      decreases |keys|
    {
      var key :| key in keys;
      store.session := store.session - {key};
      keys := keys - {key};
    }
    assert store.session == map[];
    r := Done;
  }

  method SetHeader(store: Context?, key: string, value: string) returns (r: Outcome)
    modifies store
    ensures var step := C.SetHeader(old(StateOf(store)), key, value);
      && r == OutcomeOf(step)
      && StateOf(store) == (if step.Ok? then Some(step.value) else old(StateOf(store)))
  {
    var c := C.CtxActionsOnly(StateOf(store));
    if c.Throw? {
      return Failed(c.thrown);
    }
    store.headers := HeaderSet(store.headers, key, value);
    r := Done;
  }

  method SetStatus(store: Context?, status: int, statusText: Option<string>) returns (r: Outcome)
    modifies store
    ensures var step := C.SetStatus(old(StateOf(store)), status, statusText);
      && r == OutcomeOf(step)
      && StateOf(store) == (if step.Ok? then Some(step.value) else old(StateOf(store)))
  {
    var c := C.CtxActionsOnly(StateOf(store));
    if c.Throw? {
      return Failed(c.thrown);
    }
    if TruthyString(store.redirect) {
      return Failed(C.StatusAfterRedirect);
    }
    store.status := status;
    store.statusText := statusText;
    r := Done;
  }

  method Redirect(store: Context?, to: string, status: Option<int>) returns (r: Outcome)
    modifies store
    ensures var step := C.Redirect(old(StateOf(store)), to, status);
      && r == OutcomeOf(step)
      && StateOf(store) == (if step.Ok? then Some(step.value) else old(StateOf(store)))
  {
    var c := C.Ctx(StateOf(store));
    if c.Throw? {
      return Failed(c.thrown);
    }
    store.status := if status.Some? then status.value else if store.stage == C.Action then 303 else 307;
    store.redirect := Some(to);
    r := Done;
  }

  method WaitToFlushUntil(store: Context?, w: C.WaitFor) returns (r: Result<nat>)
    modifies store
    ensures var step := C.WaitToFlushUntil(old(StateOf(store)), w);
      && r == (if step.Ok? then Ok(step.value.1) else Throw(step.thrown))
      && StateOf(store) == (if step.Ok? then Some(step.value.0) else old(StateOf(store)))
  {
    var c := C.Ctx(StateOf(store));
    if c.Throw? {
      return Throw(c.thrown);
    }
    var promise := C.PromiseOf(w);
    store.waitList := store.waitList + [C.Settled(promise)];
    r := Ok(promise);
  }

  /** One call of application code against the context. */
  method Invoke(context: Context, call: C.ContextCall) returns (r: Outcome)
    modifies context
    ensures var a := C.Apply(old(context.Snapshot()), call);
      && r == OutcomeOf(a)
      && context.Snapshot() == (if a.Ok? then a.value else old(context.Snapshot()))
  {
    match call
    case GetActionStateCall(key) =>
      r := OutcomeOf(C.GetActionState(StateOf(context), key));
    case SetActionStateCall(key, v) =>
      r := SetActionState(context, key, v);
    case GetCookieSessionCall(key) =>
      r := OutcomeOf(C.GetCookieSession(StateOf(context), key));
    case SetCookieSessionCall(key, v) =>
      r := SetCookieSession(context, key, v);
    case DestroyCookieSessionCall =>
      r := DestroyCookieSession(context);
    case GetEnvCall =>
      r := OutcomeOf(C.GetEnv(StateOf(context)));
    case GetUrlCall =>
      r := OutcomeOf(C.GetUrl(StateOf(context)));
    case SetHeaderCall(name, value) =>
      r := SetHeader(context, name, value);
    case SetStatusCall(status, text) =>
      r := SetStatus(context, status, text);
    case RedirectCall(to, status) =>
      r := Redirect(context, to, status);
    case WaitToFlushUntilCall(w) =>
      var p := WaitToFlushUntil(context, w);
      r := OutcomeOf(p);
    case RaiseCall(t) =>
      r := Failed(t);
  }

  /** An action body, stopping at its first throw. */
  method RunActionCalls(context: Context, calls: seq<C.ContextCall>) returns (outcome: Outcome)
    modifies context
    ensures (context.Snapshot(), outcome) == C.RunAction(old(context.Snapshot()), calls)
  {
    var i := 0;
    while i < |calls|
      invariant 0 <= i <= |calls|
      invariant C.RunAction(old(context.Snapshot()), calls) == C.RunAction(context.Snapshot(), calls[i..])
      decreases |calls| - i
    {
      assert calls[i..][0] == calls[i] && calls[i..][1..] == calls[i + 1..];
      var r := Invoke(context, calls[i]);
      if r.Failed? {
        return r;
      }
      i := i + 1;
    }
    outcome := Done;
  }

  /** The calls of the rendered components, each on its own. */
  method RunRenderCalls(context: Context, calls: seq<C.ContextCall>)
    modifies context
    ensures context.Snapshot() == C.RunRender(old(context.Snapshot()), calls)
  {
    for i := 0 to |calls|
      invariant C.RunRender(old(context.Snapshot()), calls) == C.RunRender(context.Snapshot(), calls[i..])
    {
      assert calls[i..][0] == calls[i] && calls[i..][1..] == calls[i + 1..];
      var _ := Invoke(context, calls[i]);
    }
  }

  /** The action phase of `renderApp`: a server action named by the
      `rsc-action` header (its return value is kept whether or not it
      throws), or a form post (its form state only when it completes). */
  method RunActionPhase(context: Context, request: C.AppRequest, action: C.AppAction)
    returns (formState: Option<Value>, returnValue: Option<Value>)
    modifies context
    ensures C.ActionPhase(old(context.Snapshot()), request, action)
         == C.ActionOutcome(context.Snapshot(), formState, returnValue)
  {
    formState, returnValue := None, None;
    if TruthyString(request.actionId) {
      if action.isServerReference {
        var _ := RunActionCalls(context, action.calls);
        returnValue := Some(action.result);
      }
    } else if request.httpMethod == "POST" {
      var outcome := RunActionCalls(context, action.calls);
      if outcome.Done? {
        formState := Some(action.result);
      }
    }
  }

  /** The response to a redirect made before rendering. */
  method RedirectResponse(context: Context, commit: map<string, Value> -> string, destroy: map<string, Value> -> string)
    returns (res: C.AppResponse)
    requires context.redirect.Some?
    ensures res == C.RedirectResponse(context.Snapshot(), commit, destroy)
  {
    var headers := new Headers.FromList(context.headers);
    headers.Set("Content-Type", "text/plain");
    headers.Append("Set-Cookie", if context.destroySession then destroy(context.session) else commit(context.session));
    headers.Set("Location", context.redirect.value);
    res := C.AppResponse(context.status, None, headers.entries, C.RedirectText("redirect " + context.redirect.value));
  }

  /** The headers of the RSC response. */
  method RscHeaders(context: Context, commit: map<string, Value> -> string, destroy: map<string, Value> -> string)
    returns (entries: seq<Entry>)
    ensures entries == C.RscHeaders(context.Snapshot(), commit, destroy)
  {
    var headers := new Headers.FromList(context.headers);
    headers.Set("Content-Type", "text/x-component");
    headers.Append("Set-Cookie", if context.destroySession then destroy(context.session) else commit(context.session));
    if TruthyString(context.redirect) {
      headers.Set("Location", context.redirect.value);
    }
    entries := headers.entries;
  }

  /** `renderApp(request, cookie, env, root)`: run the action (its errors
      are logged and dropped), then answer a redirect without rendering, or
      render and send the RSC stream. The session cookie is written by
      `commit`, or by `destroy` once the session was destroyed; the session
      is the one read from the request's Cookie header. */
  method RenderApp(request: C.AppRequest, action: C.AppAction, render: seq<C.ContextCall>, env: Value,
                   session: map<string, Value>,
                   commit: map<string, Value> -> string, destroy: map<string, Value> -> string)
    returns (res: C.AppResponse, context: Context)
    ensures fresh(context)
    ensures (res, context.Snapshot())
         == C.RenderAppSpec(C.Initial(env, request.url, session), request, action, render, commit, destroy)
  {
    context := new Context(env, request.url, session);
    var formState, returnValue := RunActionPhase(context, request, action);
    if TruthyString(context.redirect) {
      res := RedirectResponse(context, commit, destroy);
      return;
    }
    context.stage := C.Render;
    RunRenderCalls(context, render);
    context.stage := C.Sent;
    var headers := RscHeaders(context, commit, destroy);
    res := C.AppResponse(context.status, context.statusText, headers,
                         C.RscStream(C.ServerPayload(formState, request.url, returnValue)));
  }
}
