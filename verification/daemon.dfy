/**
 The daemon client object (`Lbry` and its `Proxy`): the client-state record,
 its configuration updates, endpoint routing, `apiCall`, the declared facade
 methods, `publish` with its override, the dynamic fallback for undeclared
 names, and the memoised `connect`.

 The environment is a `World`: the reply the network gives to each request,
 and the outcome a caller-supplied override function gives for each
 parameter object. The request id is the clock reading `now`.
 */
module Daemon {
  import opened JsValues
  import opened Transport
  import opened Supervisor

  /** The identity of a caller-supplied override function. */
  type HandlerId = nat

  /** The mutable fields of `Lbry`. */
  datatype Client = Client(
    isConnected: bool,
    connection: Option<Run>,          // `connectPromise`: the loop started by the first `connect()`
    daemonConnectionString: string,
    alternateConnectionString: string,
    methodsUsingAlternate: seq<string>,
    headers: map<string, string>,     // `apiRequestHeaders`
    overrides: map<string, HandlerId>)

  const DefaultDaemonConnectionString := "http://localhost:5279"

  /** `Lbry` as the module creates it. */
  const Initial: Client := Client(
    false, None, DefaultDaemonConnectionString, "", [],
    map["Content-Type" := "application/json-rpc"], map[])

  /** One call of an override function. */
  datatype Invocation = Invocation(handler: HandlerId, params: Json)

  /** The network's reply to each request and each override's outcome for each parameter object. */
  datatype World = World(answer: Request -> Exchange, handle: (HandlerId, Json) -> Outcome)

  /** The requests a call sent, the overrides it invoked, and how its promise settled. */
  datatype Effect = Effect(sent: seq<Request>, invoked: seq<Invocation>, outcome: Outcome)

  // ---------------------------------------------------------------------
  // Configuration
  // ---------------------------------------------------------------------

  /** `setDaemonConnectionString`. */
  function SetDaemonConnectionString(c: Client, value: string): (r: Client)
    ensures r.daemonConnectionString == value
    ensures r.(daemonConnectionString := c.daemonConnectionString) == c
  {
    c.(daemonConnectionString := value)
  }

  /**
   The one key `Object.assign` cannot add to the header object: copying it
   calls the inherited `__proto__` setter, which ignores a string value.
   */
  const ProtoKey := "__proto__"

  /**
   `setApiHeader`: `key` now maps to `value`; every other header and field is
   unchanged. `__proto__` is stored only when it is already an own key, which
   no `Lbry` operation makes it.
   */
  function SetApiHeader(c: Client, key: string, value: string): (r: Client)
    ensures key == ProtoKey && key !in c.headers ==> r == c
    ensures key != ProtoKey || key in c.headers ==>
      && r.headers.Keys == c.headers.Keys + {key}
      && r.headers[key] == value
    ensures forall k :: k in c.headers && k != key ==> r.headers[k] == c.headers[k]
    ensures r.(headers := c.headers) == c
  {
    if key == ProtoKey && key !in c.headers then c
    else c.(headers := c.headers[key := value])
  }

  /** `Lbry` starts without a `__proto__` header, and neither header update adds one. */
  lemma ProtoKeyNeverStored(c: Client, key: string, value: string)
    requires ProtoKey !in c.headers
    ensures ProtoKey !in Initial.headers
    ensures ProtoKey !in SetApiHeader(c, key, value).headers
    ensures ProtoKey !in UnsetApiHeader(c, key).headers
  {
  }

  /** `unsetApiHeader`: only `key` is removed; nothing changes when it is absent. */
  function UnsetApiHeader(c: Client, key: string): (r: Client)
    ensures r.headers.Keys == c.headers.Keys - {key}
    ensures forall k :: k in r.headers ==> r.headers[k] == c.headers[k]
    ensures key !in c.headers ==> r == c
    ensures r.(headers := c.headers) == c
  {
    if key in c.headers then c.(headers := c.headers - {key}) else c
  }

  /** `setOverride`: only `overrides[methodName]` is written. */
  function SetOverride(c: Client, methodName: string, handler: HandlerId): (r: Client)
    ensures r.overrides.Keys == c.overrides.Keys + {methodName}
    ensures r.overrides[methodName] == handler
    ensures forall k :: k in c.overrides && k != methodName ==> r.overrides[k] == c.overrides[k]
    ensures r.(overrides := c.overrides) == c
  {
    c.(overrides := c.overrides[methodName := handler])
  }

  /** Unsetting a header that was just set to a new key restores the store. */
  lemma UnsetUndoesSet(c: Client, key: string, value: string)
    requires key !in c.headers
    ensures UnsetApiHeader(SetApiHeader(c, key, value), key) == c
  {
    assert c.headers[key := value] - {key} == c.headers;
  }

  /** Setting a header twice keeps the last value; setting is idempotent. */
  lemma SetApiHeaderLastWins(c: Client, key: string, v1: string, v2: string)
    ensures SetApiHeader(SetApiHeader(c, key, v1), key, v2) == SetApiHeader(c, key, v2)
    ensures SetApiHeader(SetApiHeader(c, key, v2), key, v2) == SetApiHeader(c, key, v2)
  {
  }

  /** Unsetting is idempotent. */
  lemma UnsetApiHeaderIdempotent(c: Client, key: string)
    ensures UnsetApiHeader(UnsetApiHeader(c, key), key) == UnsetApiHeader(c, key)
  {
  }

  // ---------------------------------------------------------------------
  // Routing and apiCall
  // ---------------------------------------------------------------------

  /** The base URL `apiCall` sends `methodName` to. */
  function ConnectionString(c: Client, methodName: string): (base: string)
    ensures methodName in c.methodsUsingAlternate ==> base == c.alternateConnectionString
    ensures methodName !in c.methodsUsingAlternate ==> base == c.daemonConnectionString
  {
    if methodName in c.methodsUsingAlternate then c.alternateConnectionString else c.daemonConnectionString
  }

  /** The request `apiCall` sends. */
  function RequestFor(c: Client, methodName: string, params: Json, now: int): (req: Request)
    ensures req.body.methodName == methodName && req.body.params == Some(params)
    ensures req.body.jsonrpc == JsonRpcVersion && req.body.id == now
    ensures var base := ConnectionString(c, methodName);
      && |req.url| == |base| + 3 + |methodName|
      && req.url[..|base|] == base && req.url[|base|..] == "?m=" + req.body.methodName
    ensures req.headers == c.headers
  {
    var base := ConnectionString(c, methodName);
    var url := EndpointUrl(base, methodName);
    assert url[|base|..] == url[|base|..|base| + 3] + url[|base| + 3..];
    Request(url, c.headers, Envelope(JsonRpcVersion, now, methodName, Some(params)))
  }

  /** `apiCall(methodName, params, resolve, reject)`: one request, settled by the reply. */
  function ApiCall(c: Client, methodName: string, params: Json, now: int, w: World): (e: Effect)
    ensures |e.sent| == 1 && e.sent[0] == RequestFor(c, methodName, params, now)
    ensures e.invoked == []
    ensures e.outcome == DaemonOutcome(w.answer(e.sent[0]))
  {
    var req := RequestFor(c, methodName, params, now);
    Effect([req], [], DaemonOutcome(w.answer(req)))
  }

  /**
   Routing: the URL of a call starts with the alternate connection string
   when the method is listed for it, and with the daemon connection string
   otherwise, and ends with `?m=` and the method name.
   */
  lemma Routing(c: Client, methodName: string, params: Json, now: int, w: World)
    ensures var url := ApiCall(c, methodName, params, now, w).sent[0].url;
      var base := if methodName in c.methodsUsingAlternate then c.alternateConnectionString
                  else c.daemonConnectionString;
      && url[..|base|] == base
      && url[|base|..] == "?m=" + methodName
  {
    var base := ConnectionString(c, methodName);
    var url := EndpointUrl(base, methodName);
    assert url[|base|..] == url[|base|..|base| + 3] + url[|base| + 3..];
  }

  /** `daemonCallWithResult(name, params = {})`. */
  function DaemonCallWithResult(c: Client, name: string, params: Option<Json>, now: int, w: World): Effect
  {
    ApiCall(c, name, DefaultParams(params), now, w)
  }

  // ---------------------------------------------------------------------
  // The declared facade
  // ---------------------------------------------------------------------

  /**
   The declared facade methods that call `daemonCallWithResult`. Each
   declaration passes its own member name as the RPC method name, so the
   table is the set of names.
   */
  const FacadeMethods: set<string> :=
    SystemMethods + ClaimMethods + FileMethods + WalletMethods + SyncMethods + PreferenceMethods + CommentMethods

  const SystemMethods: set<string> := {"status", "stop", "version"}
  const ClaimMethods: set<string> := {
    "resolve", "get", "claim_search", "claim_list", "channel_create", "channel_update", "channel_import",
    "channel_list", "stream_abandon", "stream_list", "channel_abandon", "channel_sign", "support_create",
    "support_list", "stream_repost", "collection_resolve", "collection_list", "collection_create",
    "collection_update"
  }
  const FileMethods: set<string> := {
    "file_list", "file_delete", "file_set_status", "blob_delete", "blob_list", "file_reflect"
  }
  const WalletMethods: set<string> := {
    "wallet_balance", "wallet_decrypt", "wallet_encrypt", "wallet_unlock", "wallet_list", "wallet_send",
    "wallet_status", "address_is_mine", "address_unused", "address_list", "transaction_list", "utxo_release",
    "support_abandon", "purchase_list", "txo_list", "account_list", "account_set"
  }
  const SyncMethods: set<string> := {"sync_hash", "sync_apply"}
  const PreferenceMethods: set<string> := {"preference_get", "preference_set"}
  const CommentMethods: set<string> := {
    "comment_list", "comment_create", "comment_hide", "comment_abandon", "comment_update"
  }

  /** The facade methods declared without a parameter, which always send `{}`. */
  const ParamlessMethods: set<string> := {"stop", "version", "wallet_decrypt"}

  /** Calling declared facade method `member` with argument `args`. */
  function CallFacade(c: Client, member: string, args: Option<Json>, now: int, w: World): (e: Effect)
    requires member in FacadeMethods
    ensures |e.sent| == 1 && e.invoked == []
    ensures e.sent[0].body.methodName == member
    ensures e.sent[0].body.params == Some(if member in ParamlessMethods then EmptyObject else DefaultParams(args))
    ensures e.sent[0].headers == c.headers
    ensures e.outcome == DaemonOutcome(w.answer(e.sent[0]))
  {
    var params := if member in ParamlessMethods then Some(EmptyObject) else args;
    DaemonCallWithResult(c, member, params, now, w)
  }

  // ---------------------------------------------------------------------
  // publish and overrides
  // ---------------------------------------------------------------------

  /**
   `publish(params = {})`: an override registered for `publish` replaces
   the RPC and receives the same params; otherwise `apiCall('publish', ...)`.
   */
  function Publish(c: Client, args: Option<Json>, now: int, w: World): (e: Effect)
    ensures "publish" in c.overrides ==>
      var h := c.overrides["publish"];
      e.sent == [] && e.invoked == [Invocation(h, DefaultParams(args))] && e.outcome == w.handle(h, DefaultParams(args))
    ensures "publish" !in c.overrides ==>
      && e.invoked == [] && |e.sent| == 1
      && e.sent[0].body.methodName == "publish" && e.sent[0].body.params == Some(DefaultParams(args))
      && e.outcome == DaemonOutcome(w.answer(e.sent[0]))
  {
    var params := DefaultParams(args);
    if "publish" in c.overrides then
      var h := c.overrides["publish"];
      Effect([], [Invocation(h, params)], w.handle(h, params))
    else
      ApiCall(c, "publish", params, now, w)
  }

  /** After `setOverride('publish', h)`, publishing calls `h` once and sends nothing. */
  lemma OverriddenPublish(c: Client, h: HandlerId, args: Option<Json>, now: int, w: World)
    ensures var e := Publish(SetOverride(c, "publish", h), args, now, w);
      e.sent == [] && e.invoked == [Invocation(h, DefaultParams(args))]
      && e.outcome == w.handle(h, DefaultParams(args))
  {
  }

  /** Only `publish` consults the registry: no facade method changes when an override is set. */
  lemma OverridesOnlyReachPublish(c: Client, name: string, h: HandlerId, member: string, args: Option<Json>, now: int, w: World)
    requires member in FacadeMethods
    ensures CallFacade(SetOverride(c, name, h), member, args, now, w) == CallFacade(c, member, args, now, w)
  {
  }

  // ---------------------------------------------------------------------
  // The Proxy fallback
  // ---------------------------------------------------------------------

  /** The own members of `Lbry` other than the facade methods. */
  const OwnMembers: set<string> := {
    "isConnected", "connectPromise", "daemonConnectionString", "alternateConnectionString",
    "methodsUsingAlternateConnectionString", "apiRequestHeaders", "overrides",
    "setDaemonConnectionString", "setApiHeader", "unsetApiHeader", "setOverride",
    "getApiRequestHeaders", "getMediaType", "connect", "publish"
  }

  /** Names `in` also finds on every plain object, through `Object.prototype`. */
  const PrototypeMembers: set<string> := {
    "constructor", "hasOwnProperty", "isPrototypeOf", "propertyIsEnumerable",
    "toLocaleString", "toString", "valueOf", "__defineGetter__", "__defineSetter__",
    "__lookupGetter__", "__lookupSetter__", "__proto__"
  }

  /** `name in target`. */
  predicate InTarget(name: string)
  {
    name in OwnMembers || name in FacadeMethods || name in PrototypeMembers
  }

  /** What the `get` trap returns: the target's own value, or a function forwarding to `apiCall`. */
  datatype Property = Declared(name: string) | Forwarder(methodName: string)

  /** The `get` trap. */
  function Get(name: string): (p: Property)
    ensures p.Declared? <==> InTarget(name)
    ensures p.Declared? ==> p.name == name
    ensures p.Forwarder? ==> p.methodName == name
  {
    if InTarget(name) then Declared(name) else Forwarder(name)
  }

  /** Calling the function the trap synthesised: `apiCall(name, params = {})`. */
  function CallForwarder(c: Client, p: Property, args: Option<Json>, now: int, w: World): (e: Effect)
    requires p.Forwarder?
  {
    ApiCall(c, p.methodName, DefaultParams(args), now, w)
  }

  /**
   An undeclared name is forwarded: one request naming it, params defaulting
   to `{}`, settled by the reply, without consulting the override registry.
   */
  lemma UndeclaredNamesForward(c: Client, name: string, h: HandlerId, args: Option<Json>, now: int, w: World)
    requires !InTarget(name)
    ensures Get(name).Forwarder?
    ensures var e := CallForwarder(c, Get(name), args, now, w);
      && e.invoked == [] && |e.sent| == 1
      && e.sent[0].body.methodName == name
      && e.sent[0].body.params == Some(DefaultParams(args))
      && e.outcome == DaemonOutcome(w.answer(e.sent[0]))
    ensures CallForwarder(SetOverride(c, name, h), Get(name), args, now, w) == CallForwarder(c, Get(name), args, now, w)
  {
  }

  /**
   Declared facade methods behave exactly like the fallback would for the
   same name: the facade only adds parameter typing.
   */
  lemma FacadeAgreesWithFallback(c: Client, member: string, args: Option<Json>, now: int, w: World)
    requires member in FacadeMethods
    ensures Get(member).Declared?
    ensures CallFacade(c, member, args, now, w) ==
      CallForwarder(c, Forwarder(member), if member in ParamlessMethods then None else args, now, w)
  {
  }

  /** Without an override `publish` is the call the fallback would make. */
  lemma PublishWithoutOverrideIsForwarded(c: Client, args: Option<Json>, now: int, w: World)
    requires "publish" !in c.overrides
    ensures Publish(c, args, now, w) == CallForwarder(c, Forwarder("publish"), args, now, w)
  {
  }

  lemma GetExamples()
    ensures Get("status") == Declared("status")
    ensures Get("toString") == Declared("toString")
    ensures Get("setApiHeader") == Declared("setApiHeader")
  {
  }

  // ---------------------------------------------------------------------
  // connect
  // ---------------------------------------------------------------------

  /** The result of `connect()`: the new state, the shared loop, and whether this call started it. */
  datatype Connecting = Connecting(client: Client, run: Run, startedLoop: bool)

  /**
   `connect()`: the first call starts the polling loop (fed with the
   outcomes of its `status` polls) and stores it; later calls return the
   stored loop and start nothing. No field but `connectPromise` changes;
   in particular `isConnected` is never set.
   */
  function Connect(c: Client, answers: seq<Outcome>): (r: Connecting)
    ensures c.connection.Some? ==> r.client == c && r.run == c.connection.value && !r.startedLoop
    ensures c.connection.None? ==> r.startedLoop && r.run == Supervise(answers)
    ensures r.client.connection == Some(r.run)
    ensures r.client.(connection := c.connection) == c
  {
    match c.connection
    case Some(run) => Connecting(c, run, false)
    case None =>
      var run := Supervise(answers);
      Connecting(c.(connection := Some(run)), run, true)
  }

  /** A second `connect()` shares the first one's loop and changes nothing. */
  lemma ConnectIsMemoised(c: Client, first: seq<Outcome>, second: seq<Outcome>)
    ensures var r1 := Connect(c, first);
      var r2 := Connect(r1.client, second);
      r2.run == r1.run && r2.client == r1.client && !r2.startedLoop
  {
  }

  /**
   One tick of the polling loop: the state of `Lbry` and the clock when that
   poll runs. Each poll re-reads the headers and the routing fields, so a
   configuration change between ticks reaches the later polls.
   */
  datatype Tick = Tick(client: Client, now: int)

  /** The outcomes of the supervisor's `status` polls, one per tick. */
  function StatusPolls(ticks: seq<Tick>, w: World): (answers: seq<Outcome>)
    ensures |answers| == |ticks|
    ensures forall i :: 0 <= i < |ticks| ==>
      answers[i] == DaemonOutcome(w.answer(RequestFor(ticks[i].client, "status", EmptyObject, ticks[i].now)))
  {
    seq(|ticks|, i requires 0 <= i < |ticks| => CallFacade(ticks[i].client, "status", None, ticks[i].now, w).outcome)
  }

  /** A poll after `setDaemonConnectionString(url)` goes to the new URL. */
  lemma PollFollowsConnectionString(c: Client, url: string, now: int)
    requires "status" !in c.methodsUsingAlternate
    ensures var req := RequestFor(SetDaemonConnectionString(c, url), "status", EmptyObject, now);
      req.url[..|url|] == url
  {
  }

  /** Connecting from the initial state leaves `isConnected` false even after success. */
  lemma ConnectLeavesIsConnectedFalse(ticks: seq<Tick>, w: World)
    ensures !Connect(Initial, StatusPolls(ticks, w)).client.isConnected
  {
  }
}
