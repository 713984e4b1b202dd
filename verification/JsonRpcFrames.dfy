// Classification of gateway frames: responses (section 5 of the JSON-RPC 2.0 specification,
// with an optional `jsonrpc` member), requests allowed during a drain, and everything else.

module JsonRpcFrames {
  import opened Prelude
  import opened Gateway

  datatype Json =
    | Null
    | Bool(b: bool)
    | Int(i: int)
    | Float(x: real)
    | Str(s: string)
    | List(items: seq<Json>)
    | Object(members: map<string, Json>)

  datatype FrameClass = Response | Allowed | Blocked

  const DRAIN_ALLOWED_REQUESTS := {"thread/list", "thread/read", "turn/interrupt"}

  /** Identifiers correlate only when they are integers or strings; booleans are not integers. */
  function KeyOf(id: Json): Option<RequestKey> {
    match id
    case Int(i) => Some(IntKey(i))
    case Str(s) => Some(StrKey(s))
    case _ => None
  }

  function Member(value: Json, name: string): Option<Json> {
    if value.Object? && name in value.members then Some(value.members[name]) else None
  }

  /** `is_jsonrpc_response_envelope`, test by test. */
  predicate IsResponseEnvelope(value: Json) {
    if !value.Object? || "method" in value.members then false
    else if Member(value, "id").None? || KeyOf(Member(value, "id").value).None? then false
    else if Member(value, "jsonrpc").Some? && Member(value, "jsonrpc").value != Str("2.0") then false
    else
      var hasResult, hasError := "result" in value.members, "error" in value.members;
      if hasResult == hasError then false
      else !hasError || value.members["error"].Object?
  }

  function Classify(value: Json): FrameClass {
    if IsResponseEnvelope(value) then Response
    else match Member(value, "method")
         case Some(Str(m)) => if m in DRAIN_ALLOWED_REQUESTS then Allowed else Blocked
         case _ => Blocked
  }

  // ---- what a peer writes ----

  datatype Outcome = Success(result: Json) | Failure(error: map<string, Json>)

  const RESERVED := {"id", "result", "error", "jsonrpc", "method"}

  function IdOf(key: RequestKey): Json {
    match key
    case IntKey(i) => Int(i)
    case StrKey(s) => Str(s)
  }

  /** A Response object of section 5 to the request with that id, as a peer builds it: with or
      without the `jsonrpc` member, and possibly with further members. */
  function ResponseTo(key: RequestKey, outcome: Outcome, versioned: bool, extras: map<string, Json>): Json {
    Object(extras + map["id" := IdOf(key)]
           + (match outcome
              case Success(result) => map["result" := result]
              case Failure(error) => map["error" := Object(error)])
           + if versioned then map["jsonrpc" := Str("2.0")] else map[])
  }

  ghost predicate ResponseObject(value: Json) {
    exists key, outcome, versioned, extras: map<string, Json> ::
      extras.Keys !! RESERVED && value == ResponseTo(key, outcome, versioned, extras)
  }

  lemma EnvelopeIsBuilt(value: Json) returns (key: RequestKey, outcome: Outcome, versioned: bool, extras: map<string, Json>)
    requires IsResponseEnvelope(value)
    ensures extras.Keys !! RESERVED && value == ResponseTo(key, outcome, versioned, extras)
  {
    key := KeyOf(value.members["id"]).value;
    outcome := if "result" in value.members then Success(value.members["result"]) else Failure(value.members["error"].members);
    versioned, extras := "jsonrpc" in value.members, value.members - RESERVED;
    var built := ResponseTo(key, outcome, versioned, extras);
    assert built.members.Keys == value.members.Keys;
    assert built.members == value.members;
  }

  /** The tests of the classifier accept exactly what peers build as responses. */
  lemma EnvelopeIsResponseObject(value: Json)
    ensures IsResponseEnvelope(value) <==> ResponseObject(value)
  {
    if IsResponseEnvelope(value) {
      var key, outcome, versioned, extras := EnvelopeIsBuilt(value);
    }
    if key, outcome, versioned, extras: map<string, Json> :|
        extras.Keys !! RESERVED && value == ResponseTo(key, outcome, versioned, extras)
    {
      assert "method" in RESERVED && "jsonrpc" in RESERVED && "result" in RESERVED && "error" in RESERVED;
      assert value.members["id"] == IdOf(key);
    }
  }

  /** What passes the gateway without entering the gate: responses and the three allow-listed
      requests. Nothing else, and nothing that names a method passes as a response. */
  lemma UngatedFrames(value: Json)
    ensures Classify(value) == Response <==> ResponseObject(value)
    ensures Classify(value) == Allowed <==>
              exists m :: m in DRAIN_ALLOWED_REQUESTS && Member(value, "method") == Some(Str(m))
    ensures Member(value, "method").Some? ==> Classify(value) != Response
  {
    EnvelopeIsResponseObject(value);
  }

  /** Correlation: any response a peer builds for a request's id is recognised and finds exactly
      the entry that request registered; other ids register other entries. */
  lemma ResponseFindsItsRequest(request: Json, other: Json, key: RequestKey, outcome: Outcome, versioned: bool,
                                extras: map<string, Json>)
    requires Member(request, "id").Some? && KeyOf(Member(request, "id").value) == Some(key)
    requires extras.Keys !! RESERVED
    ensures Classify(ResponseTo(key, outcome, versioned, extras)) == Response
    ensures Member(ResponseTo(key, outcome, versioned, extras), "id") == Member(request, "id")
    ensures Member(other, "id").Some? && KeyOf(Member(other, "id").value) == Some(key) ==>
              Member(other, "id") == Member(request, "id")
  {
    EnvelopeIsResponseObject(ResponseTo(key, outcome, versioned, extras));
  }

  // ---- routing ----

  /** What `_forward_frontend` does with a decoded frame before touching the gate. */
  datatype Route =
    | Refuse                             // invalid request fault to the frontend
    | PassResponse
    | ToRead(key: Option<RequestKey>)
    | ToMutation(key: Option<RequestKey>)

  function RouteOf(value: Json, pending: map<RequestKey, Pending>): Route {
    if !value.Object? then Refuse
    else
      var id := Member(value, "id");
      if id.Some? && KeyOf(id.value).None? then Refuse
      else
        var frameClass := Classify(value);
        if frameClass == Response then PassResponse
        else match Member(value, "method")
             case Some(Str(m)) =>
               if m == "" then Refuse
               else
                 var key := if id.Some? then KeyOf(id.value) else None;
                 if key.Some? && key.value in pending then Refuse
                 else if frameClass == Allowed then ToRead(key)
                 else ToMutation(key)
             case _ => Refuse
  }

  /** The id member of a frame is exactly this: missing, that integer, or that text. */
  predicate CarriesId(value: Json, key: Option<RequestKey>)
    requires value.Object?
  {
    match key
    case None => "id" !in value.members
    case Some(IntKey(i)) => "id" in value.members && value.members["id"] == Int(i)
    case Some(StrKey(s)) => "id" in value.members && value.members["id"] == Str(s)
  }

  predicate CarriesMethod(value: Json, m: string)
    requires value.Object?
  {
    m != "" && "method" in value.members && value.members["method"] == Str(m)
  }

  /** A frame is refused exactly when it is no object, when its id is neither an integer nor a
      text, or when it is no response and either names no method or reuses a pending id. */
  lemma RefusedExactly(value: Json, pending: map<RequestKey, Pending>)
    ensures RouteOf(value, pending) == Refuse <==>
              || !value.Object?
              || (forall key :: !CarriesId(value, key))
              || (&& !ResponseObject(value)
                  && (|| (forall m :: !CarriesMethod(value, m))
                      || exists k :: k in pending && CarriesId(value, Some(k))))
  {
    EnvelopeIsResponseObject(value);
    if value.Object? {
      var key := if "id" in value.members then KeyOf(value.members["id"]) else None;
      assert key.Some? || "id" !in value.members ==> CarriesId(value, key);
      assert forall other :: CarriesId(value, other) ==> other == key;
      if Member(value, "method").Some? && Member(value, "method").value.Str? {
        var m := Member(value, "method").value.s;
        assert m != "" ==> CarriesMethod(value, m);
        assert forall other :: CarriesMethod(value, other) ==> other == m;
      }
    }
  }

  /** Everything else goes where its method says, under its own id: the three methods that read
      or interrupt pass as reads, any other must enter the gate. */
  lemma RoutedExactly(value: Json, pending: map<RequestKey, Pending>, key: Option<RequestKey>, m: string)
    requires value.Object? && CarriesId(value, key) && CarriesMethod(value, m)
    requires key.None? || key.value !in pending
    ensures RouteOf(value, pending) ==
              if m == "thread/list" || m == "thread/read" || m == "turn/interrupt" then ToRead(key) else ToMutation(key)
  {
  }

  lemma PassedExactly(value: Json, pending: map<RequestKey, Pending>)
    ensures RouteOf(value, pending) == PassResponse <==> ResponseObject(value)
  {
    EnvelopeIsResponseObject(value);
  }

  /** The route is the step of the gateway machine: a request that is routed anywhere is enabled
      as the corresponding admission, and a request outside the allow-list is never a read. */
  lemma RouteIsAdmission(s: Sys, b: nat, value: Json)
    requires b in s.bridges && s.bridges[b].pump == Idle
    ensures match RouteOf(value, s.bridges[b].pending)
            case ToRead(key) => Enabled(s, AdmitRead(b, key)) && Classify(value) == Allowed
            case ToMutation(key) =>
              && Enabled(s, AdmitMutation(b, key)) && Classify(value) == Blocked
              && (forall m :: Member(value, "method") == Some(Str(m)) ==> m !in DRAIN_ALLOWED_REQUESTS)
            case PassResponse => ResponseObject(value)
            case Refuse => true
  {
    EnvelopeIsResponseObject(value);
  }
}
