/** The request gate of the API section: the authentication stage that turns
    the outcome of a login lookup into writes to the request context, a break
    signal and a response, and the bookkeeping that builds a middleware chain
    and registers one handler per route. */
module Api {
  import opened Middleware

  datatype Option<T> = None | Some(value: T)

  // ---------------------------------------------------------------------
  // Data shapes
  // ---------------------------------------------------------------------

  /** Go's `int64`, the type of `Login.Expires` and of `time.Now().Unix()`. */
  newtype Int64 = x: int | -0x8000_0000_0000_0000 <= x < 0x8000_0000_0000_0000

  /** A BSON object id, opaque to this code. */
  type ObjectId = string

  /** A stored login record. */
  datatype Login = Login(key: string, uid: ObjectId, expires: Int64)

  /** The value stored under the `user` context key. */
  datatype UserInfo = UserInfo(id: ObjectId)

  /** The error payload sent with a refusal. */
  datatype ErrRes = ErrRes(reason: string)

  const StatusUnauthorized: int := 401
  const StatusInternalServerError: int := 500
  const NotLoggedInReason: string := "not logged in"

  /** The context keys the gate writes. */
  const LoggedInKey: string := "loggedIn"
  const UserKey: string := "user"

  /** The payload handed to the response setter: `nil` or an `ErrRes`. */
  datatype Payload = Nil | ErrPayload(err: ErrRes)

  /** One call of the response setter. */
  datatype Response = Response(status: int, payload: Payload)

  /** Values stored in the per-request context. */
  datatype CtxValue = BoolValue(b: bool) | UserValue(user: UserInfo)

  /** One `context.Set(req, key, value)`. */
  datatype Write = Write(key: string, value: CtxValue)

  /** The context of one request. */
  type Context = map<string, CtxValue>

  /** Everything one stage does to a request: the context writes in the
      order they happen, whether it signals break, and the response-setter
      calls in the order they happen. */
  datatype Effects = Effects(writes: seq<Write>, brk: bool, responses: seq<Response>)

  /** The outcome of looking up the presented API key in the login store. */
  datatype LookupOutcome =
    | QueryError(cause: string)  // any error other than "not found"
    | NotFound
    | Found(login: Login)

  /** The identity a request resolves to. */
  datatype Identity =
    | Anonymous
    | Authenticated(userID: ObjectId)
    | ResolutionFailed(cause: string)

  // ---------------------------------------------------------------------
  // The per-request context
  // ---------------------------------------------------------------------

  /** The context after performing the writes `ws`, in order, on `ctx`. */
  function ApplyWrites(ctx: Context, ws: seq<Write>): Context
  {
    if ws == [] then ctx
    else ApplyWrites(ctx, ws[..|ws| - 1])[ws[|ws| - 1].key := ws[|ws| - 1].value]
  }

  /** The value of the last write to `key` in `ws`, if any. */
  function LastWrite(ws: seq<Write>, key: string): Option<CtxValue>
  {
    if ws == [] then None
    else if ws[|ws| - 1].key == key then Some(ws[|ws| - 1].value)
    else LastWrite(ws[..|ws| - 1], key)
  }

  /** After a run of writes, a key holds the value of its last write, and
      a key never written keeps whatever it held before. */
  lemma {:induction false} ApplyWritesLookup(ctx: Context, ws: seq<Write>, key: string)
    ensures key in ApplyWrites(ctx, ws) <==> LastWrite(ws, key).Some? || key in ctx
    ensures LastWrite(ws, key).Some? ==> ApplyWrites(ctx, ws)[key] == LastWrite(ws, key).value
    ensures LastWrite(ws, key).None? && key in ctx ==> ApplyWrites(ctx, ws)[key] == ctx[key]
  {
    if ws != [] {
      ApplyWritesLookup(ctx, ws[..|ws| - 1], key);
    }
  }

  /** A key none of the writes names has no last write. */
  lemma {:induction false} LastWriteAbsent(ws: seq<Write>, key: string)
    requires forall w :: w in ws ==> w.key != key
    ensures LastWrite(ws, key) == None
  {
    if ws != [] {
      assert ws[|ws| - 1] in ws;
      LastWriteAbsent(ws[..|ws| - 1], key);
    }
  }

  // ---------------------------------------------------------------------
  // The authentication stage
  // ---------------------------------------------------------------------

  /** A found login is live at `now` unless it expired strictly before `now`. */
  predicate IsLive(lookup: LookupOutcome, now: Int64)
  {
    lookup.Found? && now <= lookup.login.expires
  }

  /** The identity a lookup outcome stands for: a failed query is a
      resolution failure, a missing or expired record is anonymous, and a
      live record authenticates its user. */
  function Resolve(lookup: LookupOutcome, now: Int64): Identity
  {
    match lookup
    case QueryError(cause) => ResolutionFailed(cause)
    case NotFound => Anonymous
    case Found(login) => if login.expires < now then Anonymous else Authenticated(login.uid)
  }

  /** `GetUserInfo`: the effects of the authentication stage on one request,
      given the outcome of looking up its API key and the current time. */
  function GetUserInfo(lookup: LookupOutcome, now: Int64): (e: Effects)
    // at most one response, and break only on a failed query
    ensures |e.responses| <= 1
    ensures e.brk <==> lookup.QueryError?
    // a failed query: 500 with no payload, and nothing written
    ensures lookup.QueryError? ==>
              e.writes == [] && e.responses == [Response(StatusInternalServerError, Nil)]
    // otherwise: no response, and loggedIn is written with the record's liveness
    ensures !lookup.QueryError? ==> e.responses == []
    ensures !lookup.QueryError? ==> LastWrite(e.writes, LoggedInKey) == Some(BoolValue(IsLive(lookup, now)))
    // user is written exactly when the record is live, and holds its uid
    ensures LastWrite(e.writes, UserKey).Some? <==> IsLive(lookup, now)
    ensures IsLive(lookup, now) ==>
              LastWrite(e.writes, UserKey) == Some(UserValue(UserInfo(lookup.login.uid)))
    // only the two gate keys are written, each at most once
    ensures forall w :: w in e.writes ==> w.key == LoggedInKey || w.key == UserKey
    ensures forall i, j :: 0 <= i < j < |e.writes| ==> e.writes[i].key != e.writes[j].key
  {
    match lookup
    case QueryError(_) =>
      Effects([], true, [Response(StatusInternalServerError, Nil)])
    case NotFound =>
      Effects([Write(LoggedInKey, BoolValue(false))], false, [])
    case Found(login) =>
      if login.expires < now then
        Effects([Write(LoggedInKey, BoolValue(false))], false, [])
      else
        Effects([Write(LoggedInKey, BoolValue(true)), Write(UserKey, UserValue(UserInfo(login.uid)))], false, [])
  }

  /** An expired record has exactly the effects of a missing one. */
  lemma ExpiredIsNotFound(login: Login, now: Int64)
    requires login.expires < now
    ensures GetUserInfo(Found(login), now) == GetUserInfo(NotFound, now)
    ensures Resolve(Found(login), now) == Anonymous
  {
  }

  /** The expiry test is strict: a record expiring at `now` or later logs in. */
  lemma ExpiryIsStrict(login: Login, now: Int64)
    requires now <= login.expires
    ensures GetUserInfo(Found(login), now).writes ==
              [Write(LoggedInKey, BoolValue(true)), Write(UserKey, UserValue(UserInfo(login.uid)))]
    ensures Resolve(Found(login), now) == Authenticated(login.uid)
  {
  }

  /** The context a request carries after the authentication stage, in terms
      of the identity it resolves to: a failed resolution leaves the context
      as it was; otherwise `loggedIn` says whether the request is
      authenticated, `user` holds the authenticated user, and every other key
      is untouched. */
  lemma GetUserInfoContext(ctx: Context, lookup: LookupOutcome, now: Int64)
    ensures var id, after := Resolve(lookup, now), ApplyWrites(ctx, GetUserInfo(lookup, now).writes);
      && (id.ResolutionFailed? ==> after == ctx)
      && (!id.ResolutionFailed? ==>
            LoggedInKey in after && after[LoggedInKey] == BoolValue(id.Authenticated?))
      && (id.Authenticated? ==>
            UserKey in after && after[UserKey] == UserValue(UserInfo(id.userID)))
      && (!id.Authenticated? ==>
            (UserKey in after <==> UserKey in ctx) &&
            (UserKey in ctx ==> after[UserKey] == ctx[UserKey]))
      && (forall k | k != LoggedInKey && k != UserKey ::
            (k in after <==> k in ctx) && (k in ctx ==> after[k] == ctx[k]))
  {
    var ws := GetUserInfo(lookup, now).writes;
    ApplyWritesLookup(ctx, ws, LoggedInKey);
    ApplyWritesLookup(ctx, ws, UserKey);
    forall k | k != LoggedInKey && k != UserKey
      ensures var after := ApplyWrites(ctx, ws);
        (k in after <==> k in ctx) && (k in ctx ==> after[k] == ctx[k])
    {
      LastWriteAbsent(ws, k);
      ApplyWritesLookup(ctx, ws, k);
    }
  }

  /** `respondNotLoggedIn`: a 401 with reason "not logged in"; it writes
      nothing and leaves signalling break to its caller. */
  function RespondNotLoggedIn(): (e: Effects)
    ensures e.writes == [] && !e.brk
    ensures e.responses == [Response(StatusUnauthorized, ErrPayload(ErrRes(NotLoggedInReason)))]
  {
    Effects([], false, [Response(StatusUnauthorized, ErrPayload(ErrRes(NotLoggedInReason)))])
  }

  // ---------------------------------------------------------------------
  // Chain bookkeeping and route registration
  // ---------------------------------------------------------------------

  /** The stages of an optional chain; an absent chain has none. */
  function StagesOf(chain: Option<seq<Stage>>): seq<Stage>
  {
    if chain.None? then [] else chain.value
  }

  /** The stages of the chain after `use(f)`: `f` comes last, after the
      stages already there, which are kept as they were. */
  function UseSpec(chain: Option<seq<Stage>>, f: Stage): (s: seq<Stage>)
    ensures |s| == |StagesOf(chain)| + 1
    ensures s[..|StagesOf(chain)|] == StagesOf(chain) && s[|StagesOf(chain)|] == f
  {
    StagesOf(chain) + [f]
  }

  /** The chain after `use` is called with each of `fs` in turn. */
  function UseAll(chain: Option<seq<Stage>>, fs: seq<Stage>): Option<seq<Stage>>
    decreases |fs|
  {
    if fs == [] then chain else UseAll(Some(UseSpec(chain, fs[0])), fs[1..])
  }

  /** Successive `use` calls append their stages in call order; starting
      without a chain, the chain holds exactly the stages used. */
  lemma {:induction false} UseAllAppends(chain: Option<seq<Stage>>, fs: seq<Stage>)
    ensures fs == [] ==> UseAll(chain, fs) == chain
    ensures fs != [] ==> UseAll(chain, fs) == Some(StagesOf(chain) + fs)
    decreases |fs|
  {
    if fs != [] {
      var next := Some(UseSpec(chain, fs[0]));
      UseAllAppends(next, fs[1..]);
      if fs[1..] != [] {
        assert StagesOf(next) + fs[1..] == StagesOf(chain) + fs;
      } else {
        assert fs == [fs[0]];
      }
    }
  }

  /** The handler `setupRoute` registers: `f` itself when there is no chain,
      otherwise a compiled chain that runs the chain's stages and then `f`. */
  function RegisteredHandler(chain: Option<seq<Stage>>, f: Stage): (h: Handler)
    ensures chain.None? ==> h == Plain(f)
    ensures chain.Some? ==> h.Compiled?
    ensures Stages(h) == StagesOf(chain) + [f]
  {
    if chain.None? then Plain(f) else Compiled(chain.value + [f])
  }

  /** A registered route. */
  datatype Route = Route(httpMethod: string, endpoint: string, handler: Handler)

  /** The router: the routes registered so far, in registration order. */
  class Router {
    var routes: seq<Route>

    constructor ()
      ensures routes == []
    {
      routes := [];
    }

    /** `HandleFunc(endpoint, h).Methods(method)`: one more route. */
    method HandleFunc(endpoint: string, h: Handler, httpMethod: string)
      modifies this
      ensures routes == old(routes) + [Route(httpMethod, endpoint, h)]
    {
      routes := routes + [Route(httpMethod, endpoint, h)];
    }
  }

  /** How `setupRoute` ends: normally, or by a panic with its message. */
  datatype SetupOutcome = Done | Panic(message: string)

  const RouterNotReadyMessage: string := "'setupRoute' cannot be called before route is init'd."
  const LoggerNotReadyMessage: string := "'setupRoute' cannot be called before logger is init'd."

  /** The state of an API section that route setup touches. */
  class ApiSection {
    var r: Router?
    /** Whether the logger is set (`log != nil`). */
    var logReady: bool
    var c: Chain?

    constructor (r: Router?, logReady: bool)
      ensures this.r == r && this.logReady == logReady && c == null
    {
      this.r := r;
      this.logReady := logReady;
      c := null;
    }

    /** The chain's stages, or None when no chain has been created. */
    ghost function ChainView(): Option<seq<Stage>>
      reads this, c
    {
      if c == null then None else Some(c.stages)
    }

    /** `use(f)`: creates the chain if there is none, then appends `f`. */
    method Use(f: Stage)
      modifies this, c
      ensures r == old(r) && logReady == old(logReady)
      ensures c != null
      ensures old(c) != null ==> c == old(c)
      ensures old(c) == null ==> fresh(c) && c.flag
      ensures ChainView() == Some(UseSpec(old(ChainView()), f))
    {
      if c == null {
        c := new Chain(true);
      }
      c.Push(f);
    }

    /** `setupRoute(method, endpoint, f)`: panics unless the router and the
        logger are set; otherwise registers the handler for (method,
        endpoint) and leaves the chain as it found it. */
    method SetupRoute(httpMethod: string, endpoint: string, f: Stage) returns (outcome: SetupOutcome)
      modifies r, c
      ensures outcome ==
                if r == null then Panic(RouterNotReadyMessage)
                else if !logReady then Panic(LoggerNotReadyMessage)
                else Done
      ensures ChainView() == old(ChainView())
      ensures r != null && outcome.Panic? ==> r.routes == old(r.routes)
      ensures r != null && outcome.Done? ==>
                r.routes == old(r.routes) + [Route(httpMethod, endpoint, RegisteredHandler(old(ChainView()), f))]
    {
      if r == null {
        return Panic(RouterNotReadyMessage);
      }
      if !logReady {
        return Panic(LoggerNotReadyMessage);
      }
      var g := Plain(f);
      if c != null {
        c.Push(f);
        g := c.MakeHandler();
        var popped := c.Pop();
      }
      r.HandleFunc(endpoint, g, httpMethod);
      outcome := Done;
    }
  }
}
