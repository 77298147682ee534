/** The per-request context of the RSC server (src/framework/server.ts) as a
    value: its fields, the guards every accessor runs first, the effect of
    each accessor, and the request lifecycle of `renderApp` that moves the
    context from `action` through `render` to `sent`. The class that holds
    this state and is updated in place is module RequestContext. */
module ContextState {
  import opened Js
  import opened Strings
  import opened Http

  datatype Stage = Action | Render | Sent

  /** Position of a stage in the lifecycle. */
  function Rank(s: Stage): nat {
    match s
    case Action => 0
    case Render => 1
    case Sent => 2
  }

  /** An entry of `waitToFlushUntil`: the caller's promise with its outcome
      discarded (`.then(() => {}, () => {})`), so it never rejects. */
  datatype Pending = Settled(promise: nat)

  /** The fields of `UNSAFE_Context`. The session is its data map; the
      header list is that of the context's own `Headers` object. */
  datatype State = State(
    stage: Stage,
    actionState: Option<map<string, Value>>,
    destroySession: bool,
    headers: seq<Entry>,
    redirect: Option<string>,
    session: map<string, Value>,
    status: int,
    statusText: Option<string>,
    url: UrlValue,
    waitList: seq<Pending>,
    env: Value)

  /** The context `renderApp` creates for a request. */
  function Initial(env: Value, url: UrlValue, session: map<string, Value>): State {
    State(Action, None, false, [], None, session, 200, None, url, [], env)
  }

  // ---------------------------------------------------------------------
  // Guards. `st` is what the async-local storage holds: None outside a
  // request.
  // ---------------------------------------------------------------------

  const NoStore := ErrorObj("No context store found")
  const AlreadySent := ErrorObj("Response already sent")

  /** `ctx()`: the context, unless there is none or its response is sent. */
  function Ctx(st: Option<State>): (r: Result<State>)
    ensures r.Ok? <==> st.Some? && st.value.stage != Sent
    ensures r.Ok? ==> r.value == st.value
    ensures r.Throw? ==> r.thrown == (if st.None? then NoStore else AlreadySent)
  {
    if st.None? then Throw(NoStore)
    else if st.value.stage == Sent then Throw(AlreadySent)
    else Ok(st.value)
  }

  /** `ctxActionsOnly()`: `ctx()`, and the stage must still be `action`;
      during `render` it fails with the same message as after `sent`. */
  function CtxActionsOnly(st: Option<State>): (r: Result<State>)
    ensures r.Ok? <==> st.Some? && st.value.stage == Action
    ensures r.Ok? ==> r.value == st.value
    ensures r.Throw? ==> r.thrown == (if st.None? then NoStore else AlreadySent)
  {
    var c := Ctx(st);
    if c.Throw? then c
    else if c.value.stage != Action then Throw(AlreadySent)
    else c
  }

  // ---------------------------------------------------------------------
  // Accessors. Each returns the new state (or what it reads) or what it
  // throws; a throwing accessor changes nothing.
  // ---------------------------------------------------------------------

  /** `getActionState(key)`: `undefined` (None) when no action state was set
      or the key is missing. */
  function GetActionState(st: Option<State>, key: string): (r: Result<Option<Value>>)
    ensures r.Ok? <==> Ctx(st).Ok?
    ensures r.Throw? ==> r.thrown == Ctx(st).thrown
  {
    var c := Ctx(st);
    if c.Throw? then Throw(c.thrown)
    else if c.value.actionState.Some? && key in c.value.actionState.value then Ok(Some(c.value.actionState.value[key]))
    else Ok(None)
  }

  /** `setActionState(key, state)`: a new record with the old keys and this
      one. Allowed in `action` and `render`. */
  function SetActionState(st: Option<State>, key: string, v: Value): (r: Result<State>)
    ensures r.Ok? <==> Ctx(st).Ok?
    ensures r.Throw? ==> r.thrown == Ctx(st).thrown
    ensures r.Ok? ==> r.value.actionState.Some? && key in r.value.actionState.value
  {
    var c := Ctx(st);
    if c.Throw? then c
    else Ok(c.value.(actionState := Some(c.value.actionState.GetOr(map[])[key := v])))
  }

  function GetCookieSession(st: Option<State>, key: string): (r: Result<Option<Value>>)
    ensures r.Ok? <==> Ctx(st).Ok?
    ensures r.Ok? ==> (r.value.Some? <==> key in st.value.session)
    ensures r.Throw? ==> r.thrown == Ctx(st).thrown
    ensures r.Ok? && r.value.Some? ==> r.value.value == st.value.session[key]
  {
    var c := Ctx(st);
    if c.Throw? then Throw(c.thrown)
    else if key in c.value.session then Ok(Some(c.value.session[key]))
    else Ok(None)
  }

  function SetCookieSession(st: Option<State>, key: string, v: Value): (r: Result<State>)
    ensures r.Ok? <==> CtxActionsOnly(st).Ok?
    ensures r.Throw? ==> r.thrown == CtxActionsOnly(st).thrown
    ensures r.Ok? ==> r.value.session == st.value.session[key := v]
  {
    var c := CtxActionsOnly(st);
    if c.Throw? then c
    else Ok(c.value.(session := c.value.session[key := v]))
  }

  /** `destoryCookieSession()`: mark the session destroyed and unset every
      key it holds. */
  function DestroyCookieSession(st: Option<State>): (r: Result<State>)
    ensures r.Ok? <==> CtxActionsOnly(st).Ok?
    ensures r.Throw? ==> r.thrown == CtxActionsOnly(st).thrown
    ensures r.Ok? ==> r.value.destroySession && r.value.session.Keys == {}
  {
    var c := CtxActionsOnly(st);
    if c.Throw? then c
    else Ok(c.value.(destroySession := true, session := map[]))
  }

  function GetEnv(st: Option<State>): (r: Result<Value>)
    ensures r.Ok? <==> Ctx(st).Ok?
    ensures r.Ok? ==> r.value == st.value.env
  {
    var c := Ctx(st);
    if c.Throw? then Throw(c.thrown) else Ok(c.value.env)
  }

  function GetUrl(st: Option<State>): (r: Result<UrlValue>)
    ensures r.Ok? <==> Ctx(st).Ok?
    ensures r.Ok? ==> r.value == st.value.url
  {
    var c := Ctx(st);
    if c.Throw? then Throw(c.thrown) else Ok(c.value.url)
  }

  /** `setHeader(key, value)`: `headers.set` on the context's headers. */
  function SetHeader(st: Option<State>, key: string, value: string): (r: Result<State>)
    ensures r.Ok? <==> CtxActionsOnly(st).Ok?
    ensures r.Throw? ==> r.thrown == CtxActionsOnly(st).thrown
    ensures r.Ok? ==> HeaderGet(r.value.headers, key) == Some(value)
  {
    var c := CtxActionsOnly(st);
    if c.Throw? then c
    else Ok(c.value.(headers := HeaderSet(c.value.headers, key, value)))
  }

  const StatusAfterRedirect := ErrorObj("Cannot set status after redirect")

  /** `setStatus(status, statusText)`: refused once a (truthy) redirect
      target is set; otherwise both fields are overwritten, the text with
      `undefined` when none is given. */
  function SetStatus(st: Option<State>, status: int, statusText: Option<string>): (r: Result<State>)
    ensures r.Ok? <==> CtxActionsOnly(st).Ok? && !TruthyString(st.value.redirect)
    ensures r.Throw? ==> r.thrown == (if CtxActionsOnly(st).Throw? then CtxActionsOnly(st).thrown else StatusAfterRedirect)
    ensures r.Ok? ==> r.value.status == status && r.value.statusText == statusText
  {
    var c := CtxActionsOnly(st);
    if c.Throw? then c
    else if TruthyString(c.value.redirect) then Throw(StatusAfterRedirect)
    else Ok(c.value.(status := status, statusText := statusText))
  }

  /** The status `redirect(to, status)` stores. */
  function RedirectStatus(stage: Stage, status: Option<int>): int {
    if status.Some? then status.value
    else if stage == Action then 303
    else 307
  }

  /** `redirect(to, status)`: store the target and the status, even in
      `render`. The setter's late-redirect hook is only installed once the
      stage is `sent`, when `ctx()` already refuses, so it never fires. */
  function Redirect(st: Option<State>, to: string, status: Option<int>): (r: Result<State>)
    ensures r.Ok? <==> Ctx(st).Ok?
    ensures r.Throw? ==> r.thrown == Ctx(st).thrown
    ensures r.Ok? ==> r.value.redirect == Some(to)
  {
    var c := Ctx(st);
    if c.Throw? then c
    else Ok(c.value.(status := RedirectStatus(c.value.stage, status), redirect := Some(to)))
  }

  /** The argument of `waitToFlushUntil`: a promise, or a function that the
      call invokes to get one. */
  datatype WaitFor = PromiseArg(promise: nat) | ThunkArg(produces: nat)

  function PromiseOf(w: WaitFor): nat {
    match w
    case PromiseArg(p) => p
    case ThunkArg(p) => p
  }

  /** `waitToFlushUntil(waitFor)`: push the settled promise and hand the
      caller's promise back. Its own `sent` check repeats the one in
      `ctx()`. */
  function WaitToFlushUntil(st: Option<State>, w: WaitFor): (r: Result<(State, nat)>)
    ensures r.Ok? <==> Ctx(st).Ok?
    ensures r.Throw? ==> r.thrown == Ctx(st).thrown
    ensures r.Ok? ==> r.value.1 == PromiseOf(w)
  {
    var c := Ctx(st);
    if c.Throw? then Throw(c.thrown)
    else Ok((c.value.(waitList := c.value.waitList + [Settled(PromiseOf(w))]), PromiseOf(w)))
  }

  // ---------------------------------------------------------------------
  // Scripts: what application code does with the context while an action
  // or a render runs.
  // ---------------------------------------------------------------------

  /** One thing application code does: a call of one of the accessors, or a
      `throw` of its own. */
  datatype ContextCall =
    | GetActionStateCall(key: string)
    | SetActionStateCall(key: string, v: Value)
    | GetCookieSessionCall(key: string)
    | SetCookieSessionCall(key: string, v: Value)
    | DestroyCookieSessionCall
    | GetEnvCall
    | GetUrlCall
    | SetHeaderCall(name: string, value: string)
    | SetStatusCall(status: int, statusText: Option<string>)
    | RedirectCall(to: string, redirectStatus: Option<int>)
    | WaitToFlushUntilCall(waitFor: WaitFor)
    | RaiseCall(thrown: Thrown)

  /** The effect of one call on the context state (what a getter reads is
      dropped: scripts are about the context's state). */
  function Apply(st: State, c: ContextCall): Result<State> {
    var s := Some(st);
    match c
    case GetActionStateCall(key) =>
      var r := GetActionState(s, key); if r.Throw? then Throw(r.thrown) else Ok(st)
    case SetActionStateCall(key, v) => SetActionState(s, key, v)
    case GetCookieSessionCall(key) =>
      var r := GetCookieSession(s, key); if r.Throw? then Throw(r.thrown) else Ok(st)
    case SetCookieSessionCall(key, v) => SetCookieSession(s, key, v)
    case DestroyCookieSessionCall => DestroyCookieSession(s)
    case GetEnvCall =>
      var r := GetEnv(s); if r.Throw? then Throw(r.thrown) else Ok(st)
    case GetUrlCall =>
      var r := GetUrl(s); if r.Throw? then Throw(r.thrown) else Ok(st)
    case SetHeaderCall(name, value) => SetHeader(s, name, value)
    case SetStatusCall(status, text) => SetStatus(s, status, text)
    case RedirectCall(to, status) => Redirect(s, to, status)
    case WaitToFlushUntilCall(w) =>
      var r := WaitToFlushUntil(s, w); if r.Throw? then Throw(r.thrown) else Ok(r.value.0)
    case RaiseCall(t) => Throw(t)
  }

  /** An action body: its calls in order, stopping at the first throw. */
  function RunAction(st: State, calls: seq<ContextCall>): (State, Outcome)
    decreases calls
  {
    if calls == [] then (st, Done)
    else
      var a := Apply(st, calls[0]);
      if a.Throw? then (st, Failed(a.thrown))
      else RunAction(a.value, calls[1..])
  }

  /** The server components of a render: each call belongs to its own
      component, so a throw (which goes into the RSC stream) does not stop
      the others. */
  function RunRender(st: State, calls: seq<ContextCall>): State
    decreases calls
  {
    if calls == [] then st
    else
      var a := Apply(st, calls[0]);
      RunRender(if a.Ok? then a.value else st, calls[1..])
  }

  // ---------------------------------------------------------------------
  // renderApp
  // ---------------------------------------------------------------------

  /** The parts of the incoming request `renderApp` reads. */
  datatype AppRequest = AppRequest(httpMethod: string, actionId: Option<string>, url: UrlValue)

  /** The server action a request resolves to: whether the reference is a
      real server reference, what the action does with the context, and
      what it returns (for a form post, the state that `decodeFormState`
      builds from that). */
  datatype AppAction = AppAction(isServerReference: bool, calls: seq<ContextCall>, result: Value)

  /** `UNSAFE_ServerPayload` without its root element. */
  datatype ServerPayload = ServerPayload(formState: Option<Value>, location: UrlValue, returnValue: Option<Value>)

  datatype AppBody = RedirectText(text: string) | RscStream(payload: ServerPayload)

  datatype AppResponse = AppResponse(status: int, statusText: Option<string>, headers: seq<Entry>, body: AppBody)

  /** The outcome of the action phase: the context afterwards, the form
      state and the return value. Errors of the phase are caught and
      logged. */
  datatype ActionOutcome = ActionOutcome(state: State, formState: Option<Value>, returnValue: Option<Value>)

  const InvalidAction := ErrorObj("Invalid action")

  function ActionPhase(st: State, request: AppRequest, action: AppAction): (r: ActionOutcome)
    ensures r.formState.Some? ==> !TruthyString(request.actionId) && request.httpMethod == "POST"
    ensures r.returnValue.Some? <==> TruthyString(request.actionId) && action.isServerReference
  {
    if TruthyString(request.actionId) then
      if !action.isServerReference then ActionOutcome(st, None, None)
      else ActionOutcome(RunAction(st, action.calls).0, None, Some(action.result))
    else if request.httpMethod == "POST" then
      var run := RunAction(st, action.calls);
      ActionOutcome(run.0, if run.1.Done? then Some(action.result) else None, None)
    else ActionOutcome(st, None, None)
  }

  /** The Set-Cookie value: the destroying cookie or the committed session. */
  function SessionCookie(st: State, commit: map<string, Value> -> string, destroy: map<string, Value> -> string): string {
    if st.destroySession then destroy(st.session) else commit(st.session)
  }

  /** The response to a redirect set during the action phase. */
  function RedirectResponse(st: State, commit: map<string, Value> -> string, destroy: map<string, Value> -> string): AppResponse
    requires st.redirect.Some?
  {
    var h0 := HeaderSet(st.headers, "Content-Type", "text/plain");
    var h1 := HeaderAppend(h0, "Set-Cookie", SessionCookie(st, commit, destroy));
    var h2 := HeaderSet(h1, "Location", st.redirect.value);
    AppResponse(st.status, None, h2, RedirectText("redirect " + st.redirect.value))
  }

  /** The headers of the RSC response, built once the stage is `sent`. */
  function RscHeaders(st: State, commit: map<string, Value> -> string, destroy: map<string, Value> -> string): seq<Entry> {
    var h0 := HeaderSet(st.headers, "Content-Type", "text/x-component");
    var h1 := HeaderAppend(h0, "Set-Cookie", SessionCookie(st, commit, destroy));
    if TruthyString(st.redirect) then HeaderSet(h1, "Location", st.redirect.value) else h1
  }

  /** `renderApp` from a fresh context: the action phase, then either the
      redirect response (the stage stays `action`) or the render, which runs
      in stage `render` and is answered in stage `sent`. The second part of
      the result is the context's final state. */
  function RenderAppSpec(init: State, request: AppRequest, action: AppAction, render: seq<ContextCall>,
                         commit: map<string, Value> -> string, destroy: map<string, Value> -> string): (AppResponse, State)
  {
    var a := ActionPhase(init, request, action);
    if TruthyString(a.state.redirect) then
      (RedirectResponse(a.state, commit, destroy), a.state)
    else
      var fin := RunRender(a.state.(stage := Render), render).(stage := Sent);
      (AppResponse(fin.status, fin.statusText, RscHeaders(fin, commit, destroy),
                   RscStream(ServerPayload(a.formState, request.url, a.returnValue))), fin)
  }

  // ---------------------------------------------------------------------
  // Properties
  // ---------------------------------------------------------------------

  /** Once the response is sent, every accessor refuses. */
  lemma SentRefusesEverything(st: State, c: ContextCall)
    requires st.stage == Sent && !c.RaiseCall?
    ensures Apply(st, c) == Throw(AlreadySent)
  {
  }

  /** The session, header and status setters work only in `action`. */
  lemma ActionsOnly(st: State, c: ContextCall)
    requires c.SetCookieSessionCall? || c.DestroyCookieSessionCall? || c.SetHeaderCall? || c.SetStatusCall?
    ensures Apply(st, c).Ok? ==> st.stage == Action
    ensures st.stage != Action ==> Apply(st, c) == Throw(AlreadySent)
  {
  }

  lemma SetStatusAfterRedirect(st: State, status: int, statusText: Option<string>)
    requires st.stage == Action && TruthyString(st.redirect)
    ensures SetStatus(Some(st), status, statusText) == Throw(StatusAfterRedirect)
  {
  }

  /** `redirect` is allowed in `render`, and its default status depends on
      the stage: 303 after an action, 307 while rendering. */
  lemma RedirectDefaults(st: State, to: string, status: Option<int>)
    requires st.stage != Sent
    ensures Redirect(Some(st), to, status).Ok?
    ensures Redirect(Some(st), to, status).value.status
         == (if status.Some? then status.value else if st.stage == Action then 303 else 307)
  {
  }

  /** `getActionState` returns the last value set for that key, and setting
      one key leaves the others alone. */
  lemma ActionStateRoundTrip(st: State, key: string, v: Value, other: string)
    requires st.stage != Sent
    ensures SetActionState(Some(st), key, v).Ok?
    ensures GetActionState(Some(SetActionState(Some(st), key, v).value), key) == Ok(Some(v))
    ensures other != key ==>
      GetActionState(Some(SetActionState(Some(st), key, v).value), other) == GetActionState(Some(st), other)
  {
  }

  /** A session value set during the action reads back, and the other keys
      read as before. In `render` the write is refused and nothing changes. */
  lemma CookieSessionRoundTrip(st: State, key: string, v: Value, other: string)
    requires st.stage != Sent
    ensures st.stage == Action <==> SetCookieSession(Some(st), key, v).Ok?
    ensures st.stage == Action ==>
      GetCookieSession(Some(SetCookieSession(Some(st), key, v).value), key) == Ok(Some(v))
    ensures st.stage == Action && other != key ==>
      GetCookieSession(Some(SetCookieSession(Some(st), key, v).value), other) == GetCookieSession(Some(st), other)
    ensures st.stage == Render ==> SetCookieSession(Some(st), key, v).thrown == AlreadySent
  {
  }

  /** `waitToFlushUntil` adds exactly one entry and changes nothing else. */
  lemma WaitAppendsOne(st: State, w: WaitFor)
    requires st.stage != Sent
    ensures WaitToFlushUntil(Some(st), w).Ok?
    ensures var s := WaitToFlushUntil(Some(st), w).value.0;
      && |s.waitList| == |st.waitList| + 1
      && s.waitList[..|st.waitList|] == st.waitList
      && s == st.(waitList := s.waitList)
  {
  }

  /** No accessor moves the stage. */
  lemma ApplyKeepsStage(st: State, c: ContextCall)
    ensures Apply(st, c).Ok? ==> Apply(st, c).value.stage == st.stage
  {
  }

  lemma {:induction false} RunActionKeepsStage(st: State, calls: seq<ContextCall>)
    ensures RunAction(st, calls).0.stage == st.stage
    decreases calls
  {
    if calls != [] {
      ApplyKeepsStage(st, calls[0]);
      var a := Apply(st, calls[0]);
      if a.Ok? {
        RunActionKeepsStage(a.value, calls[1..]);
      }
    }
  }

  lemma {:induction false} RunRenderKeepsStage(st: State, calls: seq<ContextCall>)
    ensures RunRender(st, calls).stage == st.stage
    decreases calls
  {
    if calls != [] {
      ApplyKeepsStage(st, calls[0]);
      var a := Apply(st, calls[0]);
      RunRenderKeepsStage(if a.Ok? then a.value else st, calls[1..]);
    }
  }

  /** Once rendering has started, the headers, the session and the status
      text are frozen: only `redirect`, the action state and the wait list
      can still change. */
  lemma {:induction false} RunRenderFreezes(st: State, calls: seq<ContextCall>)
    requires st.stage == Render
    ensures var r := RunRender(st, calls);
      && r.headers == st.headers && r.session == st.session
      && r.destroySession == st.destroySession && r.statusText == st.statusText
    decreases calls
  {
    if calls != [] {
      ApplyKeepsStage(st, calls[0]);
      var a := Apply(st, calls[0]);
      RunRenderFreezes(if a.Ok? then a.value else st, calls[1..]);
    }
  }

  /** An action stops at its first throw: the calls after a failing prefix
      never run. */
  lemma {:induction false} RunActionConcat(st: State, a: seq<ContextCall>, b: seq<ContextCall>)
    ensures RunAction(st, a + b)
         == (var p := RunAction(st, a); if p.1.Done? then RunAction(p.0, b) else p)
    decreases a
  {
    if a == [] {
      assert a + b == b;
    } else {
      assert (a + b)[0] == a[0];
      assert (a + b)[1..] == a[1..] + b;
      var x := Apply(st, a[0]);
      if x.Ok? {
        RunActionConcat(x.value, a[1..], b);
      }
    }
  }

  /** The render ignores a throw: the context after the render is that of
      the calls that succeed, in order. */
  lemma {:induction false} RunRenderConcat(st: State, a: seq<ContextCall>, b: seq<ContextCall>)
    ensures RunRender(st, a + b) == RunRender(RunRender(st, a), b)
    decreases a
  {
    if a == [] {
      assert a + b == b;
    } else {
      assert (a + b)[0] == a[0];
      assert (a + b)[1..] == a[1..] + b;
      var x := Apply(st, a[0]);
      RunRenderConcat(if x.Ok? then x.value else st, a[1..], b);
    }
  }

  /** A fresh context starts in `action` with status 200, no headers, no
      redirect and nothing to wait for; `renderApp` either stops in
      `action` with a redirect or ends in `sent`. */
  lemma {:induction false} RenderAppStages(env: Value, session: map<string, Value>, request: AppRequest,
                                           action: AppAction, render: seq<ContextCall>,
                                           commit: map<string, Value> -> string, destroy: map<string, Value> -> string)
    ensures var init := Initial(env, request.url, session);
      && init.stage == Action && init.status == 200 && init.headers == [] && init.waitList == []
      && var (res, fin) := RenderAppSpec(init, request, action, render, commit, destroy);
      && (fin.stage == Action <==> res.body.RedirectText?)
      && (fin.stage == Sent <==> res.body.RscStream?)
      && (res.body.RedirectText? <==> TruthyString(ActionPhase(init, request, action).state.redirect))
  {
    var init := Initial(env, request.url, session);
    var a := ActionPhase(init, request, action);
    RunActionKeepsStage(init, action.calls);
    assert a.state.stage == Action;
    RunRenderKeepsStage(a.state.(stage := Render), render);
  }

  /** A redirect set before the render is answered without rendering: the
      body names the target, `Location` holds it, the status is the
      context's, and the session cookie is attached. */
  lemma {:induction false} RedirectBeforeRender(init: State, request: AppRequest, action: AppAction, render: seq<ContextCall>,
                                                commit: map<string, Value> -> string, destroy: map<string, Value> -> string)
    requires TruthyString(ActionPhase(init, request, action).state.redirect)
    ensures var s := ActionPhase(init, request, action).state;
      var res := RenderAppSpec(init, request, action, render, commit, destroy).0;
      && res.body == RedirectText("redirect " + s.redirect.value)
      && res.status == s.status
      && HeaderGet(res.headers, "Location") == Some(s.redirect.value)
      && HeaderGet(res.headers, "Content-Type") == Some("text/plain")
      && ValuesOf(res.headers, "set-cookie") == ValuesOf(s.headers, "set-cookie") + [SessionCookie(s, commit, destroy)]
  {
    var s := ActionPhase(init, request, action).state;
    var h0 := HeaderSet(s.headers, "Content-Type", "text/plain");
    var h1 := HeaderAppend(h0, "Set-Cookie", SessionCookie(s, commit, destroy));
    assert Lower("Content-Type") == "content-type";
    assert Lower("Set-Cookie") == "set-cookie";
    assert Lower("Location") == "location";
    HeaderAppendOther(h0, "Set-Cookie", SessionCookie(s, commit, destroy), "Content-Type");
    HeaderSetOther(h1, "Location", s.redirect.value, "Content-Type");
    HeaderAppendValues(h0, "Set-Cookie", SessionCookie(s, commit, destroy));
    ValuesOfWithout(h0, "content-type", "set-cookie");
    ValuesOfWithout(s.headers, "content-type", "set-cookie");
    ValuesOfWithout(HeaderSet(h1, "Location", s.redirect.value), "location", "set-cookie");
    ValuesOfWithout(h1, "location", "set-cookie");
  }

  /** Without an early redirect the payload is rendered and sent with the
      RSC content type; a redirect made during the render only adds
      `Location` (with the context's status, 307 unless given). */
  lemma {:induction false} RenderedResponse(init: State, request: AppRequest, action: AppAction, render: seq<ContextCall>,
                                            commit: map<string, Value> -> string, destroy: map<string, Value> -> string)
    requires !TruthyString(ActionPhase(init, request, action).state.redirect)
    ensures var a := ActionPhase(init, request, action);
      var (res, fin) := RenderAppSpec(init, request, action, render, commit, destroy);
      && res.body == RscStream(ServerPayload(a.formState, request.url, a.returnValue))
      && res.status == fin.status && res.statusText == fin.statusText
      && HeaderGet(res.headers, "Content-Type") == Some("text/x-component")
      && (TruthyString(fin.redirect) ==> HeaderGet(res.headers, "Location") == fin.redirect)
      && (!TruthyString(fin.redirect) ==> HeaderGet(res.headers, "Location") == HeaderGet(a.state.headers, "Location"))
  {
    var a := ActionPhase(init, request, action);
    var fin := RunRender(a.state.(stage := Render), render).(stage := Sent);
    var h0 := HeaderSet(fin.headers, "Content-Type", "text/x-component");
    var h1 := HeaderAppend(h0, "Set-Cookie", SessionCookie(fin, commit, destroy));
    assert Lower("Content-Type") == "content-type";
    assert Lower("Set-Cookie") == "set-cookie";
    assert Lower("Location") == "location";
    HeaderAppendOther(h0, "Set-Cookie", SessionCookie(fin, commit, destroy), "Content-Type");
    HeaderAppendOther(h0, "Set-Cookie", SessionCookie(fin, commit, destroy), "Location");
    HeaderSetOther(fin.headers, "Content-Type", "text/x-component", "Location");
    RunRenderFreezes(a.state.(stage := Render), render);
    if TruthyString(fin.redirect) {
      HeaderSetOther(h1, "Location", fin.redirect.value, "Content-Type");
    }
  }
}
