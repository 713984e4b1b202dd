// The registry of worker sessions: its file and its memory change together, identifiers stay
// unique, and an identity once created keeps resolving to itself.

module SessionRegistries {
  import opened Prelude
  import opened LegacyStores

  datatype Selector = BySession(id: string) | ByThread(id: string) | ByName(name: string)

  predicate Matches(r: Record, s: Selector) {
    match s
    case BySession(id) => r.sessionId == id
    case ByThread(id) => r.threadId == id
    case ByName(name) => r.name == Some(name)
  }

  datatype RegistryFault = Duplicate | Unknown | Ambiguous | NameInConflict | Unsaved

  /** Creation is refused when any identifier is taken. */
  predicate Taken(rs: seq<Record>, r: Record) {
    exists x <- rs :: Share(x, r)
  }

  /** `update_annotations` overwrites model and effort, and nothing else but the update time. */
  function Annotate(r: Record, model: Option<string>, effort: Option<string>, now: string): Record {
    r.(profile := r.profile.(model := model, effort := effort, updatedAt := now))
  }

  function AnnotateIn(rs: seq<Record>, session: string, model: Option<string>, effort: Option<string>, now: string): seq<Record> {
    if rs == [] then []
    else [if rs[0].sessionId == session then Annotate(rs[0], model, effort, now) else rs[0]]
         + AnnotateIn(rs[1..], session, model, effort, now)
  }

  /** Same session, thread and name. */
  predicate SameIdentity(a: Record, b: Record) {
    a.sessionId == b.sessionId && a.threadId == b.threadId && a.name == b.name
  }

  lemma {:induction false} AnnotateKeepsIdentities(rs: seq<Record>, session: string, model: Option<string>,
                                                   effort: Option<string>, now: string)
    ensures var out := AnnotateIn(rs, session, model, effort, now);
            && |out| == |rs|
            && (forall i | 0 <= i < |rs| ::
                  out[i] == if rs[i].sessionId == session then Annotate(rs[i], model, effort, now) else rs[i])
    decreases |rs|
  {
    if rs != [] {
      AnnotateKeepsIdentities(rs[1..], session, model, effort, now);
    }
  }

  lemma AnnotateKeepsValid(rs: seq<Record>, session: string, model: Option<string>, effort: Option<string>, now: string)
    requires ValidRegistry(rs)
    ensures ValidRegistry(AnnotateIn(rs, session, model, effort, now))
  {
    AnnotateKeepsIdentities(rs, session, model, effort, now);
    var out := AnnotateIn(rs, session, model, effort, now);
    forall i, j | 0 <= i < j < |out| ensures !Share(out[i], out[j]) {
      assert !Share(rs[i], rs[j]);
    }
  }

  lemma CreateKeepsValid(rs: seq<Record>, r: Record)
    requires ValidRegistry(rs)
    ensures ValidRegistry(rs + [r]) <==> !Taken(rs, r)
  {
    var out := rs + [r];
    if !Taken(rs, r) {
      forall i, j | 0 <= i < j < |out| ensures !Share(out[i], out[j]) {
        assert out[i] == rs[i];
        assert rs[i] in rs;
      }
    } else {
      var x :| x in rs && Share(x, r);
      var i :| 0 <= i < |rs| && rs[i] == x;
      assert Share(out[i], out[|rs|]);
    }
  }

  /** A selector names at most one record of a valid registry. */
  lemma MatchIsUnique(rs: seq<Record>, s: Selector, i: nat, j: nat)
    requires ValidRegistry(rs) && i < |rs| && j < |rs| && Matches(rs[i], s) && Matches(rs[j], s)
    ensures i == j
  {}

  class SessionRegistry {
    var records: seq<Record>
    var file: seq<Record>

    ghost predicate Valid()
      reads this
    {
      ValidRegistry(records) && file == records
    }

    constructor ()
      ensures Valid() && records == []
    {
      records, file := [], [];
    }

    /** `saved` is whether the save reaches the disk; memory follows the file. */
    method Publish(rs: seq<Record>, saved: bool) returns (ok: bool)
      modifies this
      ensures ok == saved
      ensures records == (if saved then rs else old(records)) && file == if saved then rs else old(file)
    {
      if !saved {
        return false;
      }
      file := rs;
      records := rs;
      return true;
    }

    /** `try_resolve`: a valid registry never has the two matches that would be an error. */
    method TryResolve(s: Selector) returns (r: Result<Option<Record>, RegistryFault>)
      requires Valid()
      ensures r.Ok?
      ensures r.value.Some? <==> exists x <- records :: Matches(x, s)
      ensures r.value.Some? ==> r.value.value in records && Matches(r.value.value, s)
      ensures match s
              case BySession(id) => r.value.Some? ==> r.value.value.sessionId == id
              case ByThread(id) => r.value.Some? ==> r.value.value.threadId == id
              case ByName(name) => r.value.Some? ==> r.value.value.name == Some(name)
      ensures r.value.None? ==>
                forall x <- records ::
                  match s
                  case BySession(id) => x.sessionId != id
                  case ByThread(id) => x.threadId != id
                  case ByName(name) => x.name != Some(name)
    {
      var found: seq<nat> := [];
      for i := 0 to |records|
        invariant forall k :: k in found <==> 0 <= k < i && Matches(records[k], s)
        invariant |found| <= 1
      {
        if Matches(records[i], s) {
          if found != [] {
            assert found[0] in found;
            MatchIsUnique(records, s, found[0], i);
          }
          found := found + [i];
        }
      }
      if |found| > 1 {
        return Err(Ambiguous);
      }
      if found == [] {
        forall x | x in records ensures !Matches(x, s) {
          var i :| 0 <= i < |records| && records[i] == x;
          assert i !in found;
        }
        return Ok(None);
      }
      assert found[0] in found;
      return Ok(Some(records[found[0]]));
    }

    /** `resolve_name`: a name under an unresolved migration conflict is refused first. */
    method ResolveName(name: string, conflicts: set<string>) returns (r: Result<Record, RegistryFault>)
      requires Valid()
      ensures r == Err(NameInConflict) <==> name in conflicts
      ensures r.Ok? <==> name !in conflicts && exists x <- records :: x.name == Some(name)
      ensures r.Ok? ==> r.value in records && r.value.name == Some(name)
      ensures r.Err? ==> r.error == NameInConflict || r.error == Unknown
    {
      if name in conflicts {
        return Err(NameInConflict);
      }
      var found := TryResolve(ByName(name));
      assert forall x <- records :: Matches(x, ByName(name)) <==> x.name == Some(name);
      if found.value.None? {
        return Err(Unknown);
      }
      return Ok(found.value.value);
    }

    method Create(r: Record, saved: bool) returns (result: Result<Record, RegistryFault>)
      requires Valid()
      modifies this
      ensures Valid()
      ensures result.Ok? <==> !Taken(old(records), r) && saved
      ensures records == if result.Ok? then old(records) + [r] else old(records)
      ensures result == Err(Duplicate) <==> Taken(old(records), r)
    {
      CreateKeepsValid(records, r);
      if exists x <- records :: Share(x, r) {
        return Err(Duplicate);
      }
      var ok := Publish(records + [r], saved);
      result := if ok then Ok(r) else Err(Unsaved);
    }

    method UpdateAnnotations(session: string, model: Option<string>, effort: Option<string>, now: string, saved: bool)
      returns (result: Result<Record, RegistryFault>)
      requires Valid()
      modifies this
      ensures Valid()
      ensures result.Ok? <==> saved && exists x <- old(records) :: x.sessionId == session
      ensures records == if result.Ok? then AnnotateIn(old(records), session, model, effort, now) else old(records)
      ensures result.Ok? ==> exists x <- old(records) :: x.sessionId == session && result.value == Annotate(x, model, effort, now)
      ensures result.Ok? ==>
                && result.value in records && result.value.sessionId == session
                && result.value.profile.model == model && result.value.profile.effort == effort
                && result.value.profile.updatedAt == now
    {
      var current := TryResolve(BySession(session));
      assert forall x <- records :: Matches(x, BySession(session)) <==> x.sessionId == session;
      if current.value.None? {
        return Err(Unknown);
      }
      AnnotateKeepsValid(records, session, model, effort, now);
      AnnotateKeepsIdentities(records, session, model, effort, now);
      var ok := Publish(AnnotateIn(records, session, model, effort, now), saved);
      result := if ok then Ok(Annotate(current.value.value, model, effort, now)) else Err(Unsaved);
    }

    /** `replace_all`: the whole snapshot, refused for duplicates. */
    method ReplaceAll(rs: seq<Record>, saved: bool) returns (result: Result<(), RegistryFault>)
      requires Valid()
      modifies this
      ensures Valid()
      ensures result.Ok? <==> ValidRegistry(rs) && saved
      ensures records == if result.Ok? then rs else old(records)
    {
      if !ValidRegistry(rs) {
        return Err(Duplicate);
      }
      var ok := Publish(rs, saved);
      result := if ok then Ok(()) else Err(Unsaved);
    }
  }

  // ---- identities over runs ----

  datatype Op = CreateOp(record: Record) | AnnotateOp(session: string, model: Option<string>, effort: Option<string>, now: string)

  function After(rs: seq<Record>, op: Op): seq<Record> {
    match op
    case CreateOp(r) => if Taken(rs, r) then rs else rs + [r]
    case AnnotateOp(session, model, effort, now) => AnnotateIn(rs, session, model, effort, now)
  }

  function AfterAll(rs: seq<Record>, ops: seq<Op>): seq<Record>
    decreases |ops|
  {
    if ops == [] then rs else AfterAll(After(rs, ops[0]), ops[1..])
  }

  /** What the last annotation of a session in a run said: its model, its effort and its time. */
  function LastAnnotation(ops: seq<Op>, session: string): Option<(Option<string>, Option<string>, string)> {
    if ops == [] then None
    else if LastAnnotation(ops[1..], session).Some? then LastAnnotation(ops[1..], session)
    else if ops[0].AnnotateOp? && ops[0].session == session then Some((ops[0].model, ops[0].effort, ops[0].now))
    else None
  }

  /** Over every run a record carries the model, effort and update time of its last annotation,
      even where that one says none, and everything else stays as it was created. */
  lemma {:induction false} LastAnnotationStays(rs: seq<Record>, ops: seq<Op>, i: nat)
    requires i < |rs|
    ensures var end, r, p := AfterAll(rs, ops), rs[i], rs[i].profile;
            i < |end| &&
            match LastAnnotation(ops, r.sessionId)
            case None => end[i] == r
            case Some((model, effort, now)) =>
              end[i] == Record(r.sessionId, r.threadId, r.name,
                               Profile(p.cwd, p.createdAt, now, model, effort, p.tier, p.access), r.config)
    decreases |ops|
  {
    if ops == [] {
    } else {
      var op := ops[0];
      if op.AnnotateOp? {
        AnnotateKeepsIdentities(rs, op.session, op.model, op.effort, op.now);
      }
      LastAnnotationStays(After(rs, op), ops[1..], i);
    }
  }

  /** Over every run of creations and annotations the registry stays valid and a record keeps its
      place, session, thread and name, so whatever selected it selects it, and it alone, later. */
  lemma {:induction false} IdentityIsForGood(rs: seq<Record>, ops: seq<Op>, i: nat, s: Selector)
    requires ValidRegistry(rs) && i < |rs| && Matches(rs[i], s)
    ensures var end := AfterAll(rs, ops);
            && ValidRegistry(end) && i < |end| && SameIdentity(end[i], rs[i])
            && (forall j | 0 <= j < |end| :: Matches(end[j], s) <==> j == i)
    decreases |ops|
  {
    if ops == [] {
      forall j | 0 <= j < |rs| && Matches(rs[j], s) ensures j == i {
        MatchIsUnique(rs, s, i, j);
      }
    } else {
      match ops[0] {
        case CreateOp(r) => CreateKeepsValid(rs, r);
        case AnnotateOp(session, model, effort, now) =>
          AnnotateKeepsIdentities(rs, session, model, effort, now);
          AnnotateKeepsValid(rs, session, model, effort, now);
      }
      IdentityIsForGood(After(rs, ops[0]), ops[1..], i, s);
    }
  }
}
