// The façade's fault envelope: the one value of the wire protocol with an integer enum, read and
// written by its own pair of methods.

module FacadeFaults {
  import opened Prelude
  import opened StrictModels

  /** `FacadeFaultCode` and `FACADE_FAULT_KINDS` in one: the kind that belongs to a code. */
  function KindOf(code: int): Option<string> {
    match code
    case -32602 => Some("invalid_params")
    case -32004 => Some("turn_active")
    case -32005 => Some("turn_not_active")
    case -32011 => Some("registry_error")
    case -32015 => Some("codex_protocol_error")
    case -32020 => Some("codex_failure")
    case -32021 => Some("worker_name_exists")
    case -32022 => Some("worker_not_found")
    case -32023 => Some("daemon_stopped")
    case -32024 => Some("daemon_start_failed")
    case -32025 => Some("timeout_active")
    case -32026 => Some("model_unavailable")
    case -32027 => Some("effort_unsupported")
    case -32028 => Some("limits_unavailable")
    case -32029 => Some("incomplete_completion")
    case -32030 => Some("daemon_stop_failed")
    case -32031 => Some("callback_unavailable")
    case -32032 => Some("callback_target_stale")
    case -32033 => Some("callback_target_not_found")
    case -32034 => Some("callback_target_ambiguous")
    case -32035 => Some("callback_target_unsafe")
    case -32036 => Some("callback_send_failed")
    case -32037 => Some("callback_payload_too_large")
    case -32038 => Some("tool_version_mismatch")
    case -32039 => Some("address_in_use")
    case -32040 => Some("service_busy")
    case -32041 => Some("legacy_name_conflict")
    case -32042 => Some("service_config_conflict")
    case _ => None
  }

  /** Looking a code up by value: any number that compares equal is accepted. */
  function CodeFor(v: PyValue): Option<int> {
    match Number(v)
    case Some(x) => if x.Floor as real == x && KindOf(x.Floor).Some? then Some(x.Floor) else None
    case None => None
  }

  lemma CodeForExactly(v: PyValue, code: int)
    ensures CodeFor(v) == Some(code) <==> KindOf(code).Some? && PyEqual(Int(code), v)
  {
    assert (code as real).Floor == code;
  }

  datatype FacadeFault =
    FacadeFault(code: int, message: string, kind: string, retryable: bool, origin: string,
                details: map<string, PyValue>, knownIds: map<string, PyValue>, nextActions: seq<PyValue>)

  predicate ValidIds(ids: map<string, PyValue>) {
    && ids.Keys == {"name", "session_id", "thread_id", "turn_id"}
    && forall k <- ids :: ids[k] == Null || ids[k].Str?
  }

  /** A command and a reason, both non-empty text, the command literal. */
  predicate ValidAction(action: PyValue) {
    && action.Dict? && action.entries.Keys == {"command", "reason"}
    && (forall k <- action.entries :: action.entries[k].Str? && action.entries[k].s != "")
    && '<' !in action.entries["command"].s && '>' !in action.entries["command"].s
  }

  predicate ValidActions(actions: seq<PyValue>) {
    forall i | 0 <= i < |actions| :: ValidAction(actions[i])
  }

  predicate ValidFault(f: FacadeFault) {
    && KindOf(f.code) == Some(f.kind) && f.message != "" && f.kind != "" && f.origin != ""
    && IsJson(Dict(f.details)) && ValidIds(f.knownIds) && ValidActions(f.nextActions)
  }

  const NO_IDS: map<string, PyValue> :=
    map["name" := Null, "session_id" := Null, "thread_id" := Null, "turn_id" := Null]

  function OrElse(v: PyValue, default: PyValue): PyValue {
    if v == Null then default else v
  }

  /** The constructor: None is an absent argument. */
  function Construct(code: PyValue, message: PyValue, kind: PyValue, retryable: PyValue, origin: PyValue,
                     details: PyValue, knownIds: PyValue, nextActions: PyValue): Option<FacadeFault> {
    var ds, ids, actions := OrElse(details, Dict(map[])), OrElse(knownIds, Dict(NO_IDS)), OrElse(nextActions, List([]));
    if CodeFor(code).None? || !message.Str? || !kind.Str? || message.s == "" || kind.s == "" then None
    else if KindOf(CodeFor(code).value) != Some(kind.s) then None
    else if !retryable.Bool? || !origin.Str? || origin.s == "" then None
    else if !ds.Dict? || !IsJson(ds) then None
    else if !ids.Dict? || !ValidIds(ids.entries) then None
    else if !actions.List? || !ValidActions(actions.items) then None
    else Some(FacadeFault(CodeFor(code).value, message.s, kind.s, retryable.b, origin.s, ds.entries, ids.entries, actions.items))
  }

  predicate Envelope(v: PyValue) {
    && v.Dict? && v.entries.Keys == {"code", "message", "data"} && v.entries["data"].Dict?
    && v.entries["data"].entries.Keys == {"kind", "retryable", "source", "details", "known_ids", "next_actions"}
  }

  function FromDict(v: PyValue): Option<FacadeFault> {
    if !Envelope(v) then None
    else
      var data := v.entries["data"].entries;
      Construct(v.entries["code"], v.entries["message"], data["kind"], data["retryable"], data["source"],
                data["details"], data["known_ids"], data["next_actions"])
  }

  function ToDict(f: FacadeFault): PyValue {
    Wire(f, Int(f.code), Dict(f.details), Dict(f.knownIds), List(f.nextActions))
  }

  function Wire(f: FacadeFault, code: PyValue, details: PyValue, knownIds: PyValue, nextActions: PyValue): PyValue {
    Dict(map["code" := code, "message" := Str(f.message),
             "data" := Dict(map["kind" := Str(f.kind), "retryable" := Bool(f.retryable), "source" := Str(f.origin),
                                "details" := details, "known_ids" := knownIds, "next_actions" := nextActions])])
  }

  /** A fault written out and read back is the same fault. */
  lemma FaultRoundTrip(f: FacadeFault)
    requires ValidFault(f)
    ensures FromDict(ToDict(f)) == Some(f)
  {
    WireIsRead(f, Int(f.code), Dict(f.details), Dict(f.knownIds), List(f.nextActions));
  }

  ghost predicate Denotes(f: FacadeFault, code: PyValue, details: PyValue, ids: PyValue, actions: PyValue) {
    && PyEqual(Int(f.code), code)
    && Dict(f.details) == OrElse(details, Dict(map[])) && Dict(f.knownIds) == OrElse(ids, Dict(NO_IDS))
    && List(f.nextActions) == OrElse(actions, List([]))
  }

  lemma DenotedConstructs(f: FacadeFault, code: PyValue, details: PyValue, ids: PyValue, actions: PyValue)
    requires ValidFault(f) && Denotes(f, code, details, ids, actions)
    ensures Construct(code, Str(f.message), Str(f.kind), Bool(f.retryable), Str(f.origin), details, ids, actions) == Some(f)
  {
    CodeForExactly(code, f.code);
  }

  lemma WireIsEnvelope(f: FacadeFault, code: PyValue, details: PyValue, ids: PyValue, actions: PyValue)
    ensures var w := Wire(f, code, details, ids, actions);
            && Envelope(w)
            && FromDict(w) == Construct(code, Str(f.message), Str(f.kind), Bool(f.retryable), Str(f.origin), details, ids, actions)
  {
    var w := Wire(f, code, details, ids, actions);
    assert w.entries.Keys == {"code", "message", "data"};
    assert w.entries["data"].entries.Keys == {"kind", "retryable", "source", "details", "known_ids", "next_actions"};
  }

  lemma WireIsRead(f: FacadeFault, code: PyValue, details: PyValue, ids: PyValue, actions: PyValue)
    requires ValidFault(f) && Denotes(f, code, details, ids, actions)
    ensures FromDict(Wire(f, code, details, ids, actions)) == Some(f)
  {
    WireIsEnvelope(f, code, details, ids, actions);
    DenotedConstructs(f, code, details, ids, actions);
  }

  lemma ReadIsWire(v: PyValue, f: FacadeFault)
    requires FromDict(v) == Some(f)
    ensures ValidFault(f)
    ensures var data := v.entries["data"].entries;
            && Denotes(f, v.entries["code"], data["details"], data["known_ids"], data["next_actions"])
            && v == Wire(f, v.entries["code"], data["details"], data["known_ids"], data["next_actions"])
  {
    CodeForExactly(v.entries["code"], f.code);
    var data := v.entries["data"].entries;
    var w := Wire(f, v.entries["code"], data["details"], data["known_ids"], data["next_actions"]);
    assert w.entries["data"].entries == data;
    assert w.entries == v.entries;
  }

  /** Everything that is read as a fault, exactly: its code compares equal to the fault's, and what
      may be absent is there or null. */
  lemma ReadExactly(v: PyValue, f: FacadeFault)
    ensures FromDict(v) == Some(f) <==>
              ValidFault(f) && exists code, details, ids, actions ::
                Denotes(f, code, details, ids, actions) && v == Wire(f, code, details, ids, actions)
  {
    if FromDict(v) == Some(f) {
      ReadIsWire(v, f);
    }
    if code, details, ids, actions :| ValidFault(f) && Denotes(f, code, details, ids, actions) && v == Wire(f, code, details, ids, actions) {
      WireIsRead(f, code, details, ids, actions);
    }
  }

  /** Writing out what was read gives the input back if and only if its code was an integer and
      nothing in it was left to a default. */
  lemma WriteUndoesRead(v: PyValue, f: FacadeFault)
    requires FromDict(v) == Some(f)
    ensures var data := v.entries["data"].entries;
            ToDict(f) == v <==>
              v.entries["code"].Int? && data["details"] != Null && data["known_ids"] != Null && data["next_actions"] != Null
  {
    ReadIsWire(v, f);
    var data, written := v.entries["data"].entries, ToDict(f).entries["data"].entries;
    if ToDict(f) == v {
      assert written == data;
      assert ToDict(f).entries["code"] == v.entries["code"];
    }
  }

  /** In particular a code sent as a float is accepted for every fault, and comes back an integer. */
  lemma FloatCodeIsRead(f: FacadeFault)
    requires ValidFault(f)
    ensures var v := Wire(f, Float(f.code as real), Dict(f.details), Dict(f.knownIds), List(f.nextActions));
            FromDict(v) == Some(f) && ToDict(f) != v
  {
    var v := Wire(f, Float(f.code as real), Dict(f.details), Dict(f.knownIds), List(f.nextActions));
    WireIsRead(f, Float(f.code as real), Dict(f.details), Dict(f.knownIds), List(f.nextActions));
    WriteUndoesRead(v, f);
  }
}
