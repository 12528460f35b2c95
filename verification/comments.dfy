/**
 The comments-service client (`Comments` in `ui/comments.ts`): its three
 state fields, `setServerUrl`, `fetchCommentsApi` and the facade table of
 namespaced RPC names.

 `COMMENT_SERVER_API` comes from build configuration; it is kept as the
 field `serverApi`, so every property holds whatever its value.
 */
module Comments {
  import opened JsValues
  import opened Transport

  /** The `Comments` object's fields, with the configured default server URL. */
  datatype Settings = Settings(serverApi: string, url: string, enabled: bool, isCustomServer: bool)

  const NotSetMessage := "Commenting server is not set."
  const NotEnabledMessage := "Comments are not currently enabled."

  /** The only header the comments client sends. */
  const CommentsHeaders: map<string, string> := map["Content-Type" := "application/json"]

  /** `enabled` mirrors a non-empty URL and `isCustomServer` a URL other than the default. */
  predicate Consistent(s: Settings)
  {
    && (s.enabled <==> s.url != "")
    && (s.isCustomServer <==> s.url != s.serverApi)
  }

  /** The object as the module creates it. */
  function Init(serverApi: string): (s: Settings)
    ensures s.serverApi == serverApi && s.url == serverApi
    ensures !s.isCustomServer
    ensures s.enabled <==> serverApi != ""
    ensures Consistent(s)
  {
    Settings(serverApi, serverApi, serverApi != "", false)
  }

  /**
   `setServerUrl(customUrl)`: `undefined` restores the default URL; the two
   flags are recomputed from the new URL, whatever they were before.
   */
  function SetServerUrl(s: Settings, customUrl: Option<string>): (r: Settings)
    ensures r.serverApi == s.serverApi
    ensures customUrl.None? ==> r.url == s.serverApi && !r.isCustomServer
    ensures customUrl.Some? ==> r.url == customUrl.value
    ensures Consistent(r)
  {
    var url := if customUrl.None? then s.serverApi else customUrl.value;
    s.(url := url, enabled := url != "", isCustomServer := url != s.serverApi)
  }

  /** The state after creation and a series of `setServerUrl` calls. */
  function Configure(serverApi: string, updates: seq<Option<string>>): (s: Settings)
    ensures s.serverApi == serverApi
    ensures Consistent(s)
    ensures updates != [] ==>
      s.url == (if updates[|updates| - 1].None? then serverApi else updates[|updates| - 1].value)
    decreases |updates|
  {
    if updates == [] then Init(serverApi)
    else SetServerUrl(Configure(serverApi, updates[..|updates| - 1]), updates[|updates| - 1])
  }

  /** `setServerUrl` is idempotent. */
  lemma SetServerUrlIdempotent(s: Settings, customUrl: Option<string>)
    ensures SetServerUrl(SetServerUrl(s, customUrl), customUrl) == SetServerUrl(s, customUrl)
  {
  }

  /** The request `fetchCommentsApi` sends once its guards pass. */
  function CommentsRequest(s: Settings, methodName: string, params: Option<Json>): (req: Request)
    ensures req.body.methodName == methodName && req.body.params == params
    ensures req.body.jsonrpc == JsonRpcVersion && req.body.id == 1
    ensures |req.url| == |s.url| + 3 + |methodName|
    ensures req.url[..|s.url|] == s.url && req.url[|s.url|..] == "?m=" + req.body.methodName
    ensures req.headers == CommentsHeaders
  {
    var url := EndpointUrl(s.url, methodName);
    assert url[|s.url|..] == url[|s.url|..|s.url| + 3] + url[|s.url| + 3..];
    Request(url, CommentsHeaders, Envelope(JsonRpcVersion, 1, methodName, params))
  }

  /**
   Every comments request carries id 1 and the fixed header whatever the
   method, goes to the configured URL, and names its method in the URL so
   that two requests share a URL exactly when they share a method.
   */
  lemma CommentsRouting(s: Settings, m1: string, p1: Option<Json>, m2: string, p2: Option<Json>)
    ensures var r1 := CommentsRequest(s, m1, p1);
      var r2 := CommentsRequest(s, m2, p2);
      && r1.body.id == r2.body.id == 1
      && r1.headers == r2.headers == CommentsHeaders
      && r1.url[..|s.url|] == s.url
      && (r1.url == r2.url <==> m1 == m2)
  {
  }

  /**
   How a reply settles: `res.json()` then throw `new Error(res.error.message)`
   when `res.error` is truthy, else return `res.result`. The HTTP status is
   never looked at.
   */
  function CommentsOutcome(ex: Exchange): (o: Outcome)
    ensures ex.NoResponse? ==> o == Rejected(NetworkFailure)
    ensures ex.Response? && ex.body.None? ==> o == Rejected(InvalidJson)
    ensures ex.Response? && ex.body == Some(JNull) ==> o == Rejected(TypeError)
    ensures ex.Response? && ex.body.Some? && !ex.body.value.JNull? ==>
      var res := ex.body.value;
      && (o.Rejected? <==> Truthy(Prop(res, "error")))
      && (o.Rejected? ==> o.reason == NewError(Prop(Prop(res, "error").value, "message")))
      && (o.Resolved? ==> o.value == Prop(res, "result"))
  {
    match ex
    case NoResponse => Rejected(NetworkFailure)
    case Response(_, None) => Rejected(InvalidJson)
    case Response(_, Some(res)) =>
      if res.JNull? then Rejected(TypeError)
      else
        var error := Prop(res, "error");
        if Truthy(error) then Rejected(NewError(Prop(error.value, "message")))
        else Resolved(Prop(res, "result"))
  }

  /**
   `fetchCommentsApi(method, params)`: an empty URL rejects first, a
   disabled client second, both without a request; otherwise one request is
   sent and its reply settles the call.
   */
  function FetchCommentsApi(s: Settings, methodName: string, params: Option<Json>, answer: Request -> Exchange): (c: Call)
    ensures s.url == "" ==> c == Call([], Rejected(NewError(Some(JStr(NotSetMessage)))))
    ensures s.url != "" && !s.enabled ==> c == Call([], Rejected(NewError(Some(JStr(NotEnabledMessage)))))
    ensures s.url != "" && s.enabled ==>
      c.sent == [CommentsRequest(s, methodName, params)] && c.outcome == CommentsOutcome(answer(c.sent[0]))
  {
    if s.url == "" then Call([], Rejected(NewError(Some(JStr(NotSetMessage)))))
    else if !s.enabled then Call([], Rejected(NewError(Some(JStr(NotEnabledMessage)))))
    else
      var req := CommentsRequest(s, methodName, params);
      Call([req], CommentsOutcome(answer(req)))
  }

  /**
   In every state reached through creation and `setServerUrl`, the
   "not enabled" guard never fires: an empty URL rejects with "not set",
   any other URL sends the request.
   */
  lemma NotEnabledUnreachable(serverApi: string, updates: seq<Option<string>>, methodName: string,
                              params: Option<Json>, answer: Request -> Exchange)
    ensures var s := Configure(serverApi, updates);
      var c := FetchCommentsApi(s, methodName, params, answer);
      && (s.url == "" ==> c == Call([], Rejected(NewError(Some(JStr(NotSetMessage))))))
      && (s.url != "" ==> c.sent == [CommentsRequest(s, methodName, params)])
  {
  }

  /**
   The comments client ignores the HTTP status and `result.error`, unlike
   the daemon client: a failing status with a `result` still resolves.
   */
  lemma StatusIgnored(status1: int, status2: int, body: Option<Json>)
    ensures CommentsOutcome(Response(status1, body)) == CommentsOutcome(Response(status2, body))
  {
  }

  /**
   The two clients disagree on a 2xx reply whose `result` carries a truthy
   `error`: the comments client resolves with the `result`, the daemon client
   rejects with the error value. A failing status with a `result` resolves.
   */
  lemma DiffersFromDaemon(e: Json, payload: Json)
    requires Truthy(Some(e))
    ensures var inner := JObj(map["error" := e]);
      var res := JObj(map["result" := inner]);
      && CommentsOutcome(Response(200, Some(res))) == Resolved(Some(inner))
      && DaemonOutcome(Response(200, Some(res))) == Rejected(ErrorValue(e))
      && CommentsOutcome(Response(500, Some(JObj(map["result" := payload])))) == Resolved(Some(payload))
  {
    var inner := JObj(map["error" := e]);
    var res := JObj(map["result" := inner]);
    assert Prop(res, "error") == None;
    assert Prop(res, "result") == Some(inner);
    assert Prop(inner, "error") == Some(e);
    assert Prop(JObj(map["result" := payload]), "error") == None;
  }

  // ---------------------------------------------------------------------
  // The facade
  // ---------------------------------------------------------------------

  /** The namespaces of the comment server's RPC names. */
  datatype Namespace = ModerationNs | CommentNs | ReactionNs | SettingNs

  function NamespaceName(ns: Namespace): (name: string)
    ensures '.' !in name && name != ""
  {
    match ns
    case ModerationNs => "moderation"
    case CommentNs => "comment"
    case ReactionNs => "reaction"
    case SettingNs => "setting"
  }

  /** A namespaced RPC name such as `moderation.UnBlock`. */
  datatype Rpc = Rpc(ns: Namespace, op: string)

  /** The text of an RPC name: namespace, `.`, operation. */
  function RpcText(r: Rpc): string
  {
    NamespaceName(r.ns) + "." + r.op
  }

  /** The RPC each facade method passes to `fetchCommentsApi`. */
  function RpcName(member: string): Option<Rpc>
  {
    match member
    case "moderation_block" => Some(Rpc(ModerationNs, "Block"))
    case "moderation_unblock" => Some(Rpc(ModerationNs, "UnBlock"))
    case "moderation_block_list" => Some(Rpc(ModerationNs, "BlockedList"))
    case "moderation_add_delegate" => Some(Rpc(ModerationNs, "AddDelegate"))
    case "moderation_remove_delegate" => Some(Rpc(ModerationNs, "RemoveDelegate"))
    case "moderation_list_delegates" => Some(Rpc(ModerationNs, "ListDelegates"))
    case "moderation_am_i" => Some(Rpc(ModerationNs, "AmI"))
    case "comment_list" => Some(Rpc(CommentNs, "List"))
    case "comment_abandon" => Some(Rpc(CommentNs, "Abandon"))
    case "comment_create" => Some(Rpc(CommentNs, "Create"))
    case "comment_by_id" => Some(Rpc(CommentNs, "ByID"))
    case "comment_pin" => Some(Rpc(CommentNs, "Pin"))
    case "comment_edit" => Some(Rpc(CommentNs, "Edit"))
    case "reaction_list" => Some(Rpc(ReactionNs, "List"))
    case "reaction_react" => Some(Rpc(ReactionNs, "React"))
    case "setting_list" => Some(Rpc(SettingNs, "List"))
    case "setting_block_word" => Some(Rpc(SettingNs, "BlockWord"))
    case "setting_unblock_word" => Some(Rpc(SettingNs, "UnBlockWord"))
    case "setting_list_blocked_words" => Some(Rpc(SettingNs, "ListBlockedWords"))
    case "setting_update" => Some(Rpc(SettingNs, "Update"))
    case "setting_get" => Some(Rpc(SettingNs, "Get"))
    case "super_list" => Some(Rpc(CommentNs, "SuperChatList"))
    case _ => None
  }

  /** The facade method that calls an RPC: the table read backwards. */
  function MemberFor(r: Rpc): Option<string>
  {
    match r.ns
    case ModerationNs =>
      (match r.op
       case "Block" => Some("moderation_block")
       case "UnBlock" => Some("moderation_unblock")
       case "BlockedList" => Some("moderation_block_list")
       case "AddDelegate" => Some("moderation_add_delegate")
       case "RemoveDelegate" => Some("moderation_remove_delegate")
       case "ListDelegates" => Some("moderation_list_delegates")
       case "AmI" => Some("moderation_am_i")
       case _ => None)
    case CommentNs =>
      (match r.op
       case "List" => Some("comment_list")
       case "Abandon" => Some("comment_abandon")
       case "Create" => Some("comment_create")
       case "ByID" => Some("comment_by_id")
       case "Pin" => Some("comment_pin")
       case "Edit" => Some("comment_edit")
       case "SuperChatList" => Some("super_list")
       case _ => None)
    case ReactionNs =>
      (match r.op
       case "List" => Some("reaction_list")
       case "React" => Some("reaction_react")
       case _ => None)
    case SettingNs =>
      (match r.op
       case "List" => Some("setting_list")
       case "BlockWord" => Some("setting_block_word")
       case "UnBlockWord" => Some("setting_unblock_word")
       case "ListBlockedWords" => Some("setting_list_blocked_words")
       case "Update" => Some("setting_update")
       case "Get" => Some("setting_get")
       case _ => None)
  }

  /** Reading the table backwards recovers the facade method. */
  lemma RpcNameRoundTrip(member: string)
    ensures RpcName(member).Some? ==> MemberFor(RpcName(member).value) == Some(member)
  {
    if RpcName(member).Some? {
      match RpcName(member).value.ns
      case ModerationNs => ModerationRoundTrip(member);
      case CommentNs => CommentRoundTrip(member);
      case ReactionNs => ReactionRoundTrip(member);
      case SettingNs => SettingRoundTrip(member);
    }
  }

  lemma ModerationRoundTrip(member: string)
    requires RpcName(member).Some? && RpcName(member).value.ns == ModerationNs
    ensures MemberFor(RpcName(member).value) == Some(member)
  {
  }

  lemma CommentRoundTrip(member: string)
    requires RpcName(member).Some? && RpcName(member).value.ns == CommentNs
    ensures MemberFor(RpcName(member).value) == Some(member)
  {
  }

  lemma ReactionRoundTrip(member: string)
    requires RpcName(member).Some? && RpcName(member).value.ns == ReactionNs
    ensures MemberFor(RpcName(member).value) == Some(member)
  {
  }

  lemma SettingRoundTrip(member: string)
    requires RpcName(member).Some? && RpcName(member).value.ns == SettingNs
    ensures MemberFor(RpcName(member).value) == Some(member)
  {
  }

  /** The namespace ends at the first `.`, so the text determines the RPC. */
  lemma {:induction false} RpcTextInjective(a: Rpc, b: Rpc)
    requires RpcText(a) == RpcText(b)
    ensures a == b
  {
    var na, nb := NamespaceName(a.ns), NamespaceName(b.ns);
    var t := RpcText(a);
    assert t == na + "." + a.op && t == nb + "." + b.op;
    FirstDot(na, a.op);
    FirstDot(nb, b.op);
    if |na| != |nb| {
      assert false;
    }
    assert na == t[..|na|] == nb;
    assert a.op == t[|na| + 1..] == b.op;
  }

  /** In `n + "." + op` with a dot-free `n`, the first `.` is at `|n|`. */
  lemma FirstDot(n: string, op: string)
    requires '.' !in n
    ensures (n + "." + op)[|n|] == '.'
    ensures forall k :: 0 <= k < |n| ==> (n + "." + op)[k] != '.'
  {
    forall k | 0 <= k < |n| ensures (n + "." + op)[k] != '.' {
      assert (n + "." + op)[k] == n[k];
    }
  }

  /** Different facade methods call different RPC names. */
  lemma RpcNameInjective(m1: string, m2: string)
    requires RpcName(m1).Some? && RpcName(m2).Some?
    requires RpcText(RpcName(m1).value) == RpcText(RpcName(m2).value)
    ensures m1 == m2
  {
    RpcTextInjective(RpcName(m1).value, RpcName(m2).value);
    RpcNameRoundTrip(m1);
    RpcNameRoundTrip(m2);
  }

  /** Every RPC name is one of the four namespaces, a `.`, and a non-empty operation. */
  lemma RpcNameForm(member: string)
    ensures RpcName(member).Some? ==>
      var r := RpcName(member).value;
      && r.op != ""
      && RpcText(r)[..|NamespaceName(r.ns)| + 1] == NamespaceName(r.ns) + "."
      && RpcText(r)[|NamespaceName(r.ns)| + 1..] == r.op
  {
  }

  /** Calling facade method `member`: `fetchCommentsApi` with its fixed RPC name. */
  function CallFacade(s: Settings, member: string, params: Option<Json>, answer: Request -> Exchange): (c: Call)
    requires RpcName(member).Some?
    ensures c.sent == [] <==> s.url == "" || !s.enabled
    ensures c.sent != [] ==>
      && c.sent == [CommentsRequest(s, RpcText(RpcName(member).value), params)]
      && c.outcome == CommentsOutcome(answer(c.sent[0]))
    ensures c.sent == [] ==> c.outcome.Rejected? && c.outcome.reason.NewError?
  {
    FetchCommentsApi(s, RpcText(RpcName(member).value), params, answer)
  }

  lemma FacadeExamples()
    ensures RpcName("moderation_unblock") == Some(Rpc(ModerationNs, "UnBlock"))
    ensures RpcName("comment_by_id") == Some(Rpc(CommentNs, "ByID"))
    ensures RpcName("super_list") == Some(Rpc(CommentNs, "SuperChatList"))
    ensures RpcName("comment_delete") == None
    ensures RpcText(Rpc(ModerationNs, "UnBlock")) == "moderation.UnBlock"
  {
  }
}
