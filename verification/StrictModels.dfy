// Type-directed serialisation of frozen models: checking, dumping and loading a Python value
// along an annotation, and in what sense dump and load undo each other.

module StrictModels {
  import opened Prelude

  /** A Python value. `Other` is anything that is neither JSON nor an enum member nor a model. */
  datatype PyValue =
    | Null
    | Bool(b: bool)
    | Int(i: int)
    | Float(x: real)
    | Str(s: string)
    | List(items: seq<PyValue>)
    | Dict(entries: map<string, PyValue>)
    | Member(enum: string, name: string)
    | Model(class_: string, fields: map<string, PyValue>)
    | Other

  datatype Annotation =
    | StrT
    | IntT
    | BoolT
    | FloatT
    | AnyT
    | EnumT(enum: string)
    | OptionalT(inner: Annotation)
    | ListT(item: Annotation)
    | DictT(value: Annotation)
    | ModelT(class_: string)

  const SCALARS := {StrT, IntT, BoolT, FloatT}

  /** The classes: each enum's members and their values, each model's annotated fields, and the
      literal and contract checks a model's constructor adds. */
  datatype Schema = Schema(enums: map<string, map<string, PyValue>>, models: map<string, map<string, Annotation>>,
                           contract: PyValue -> bool)

  /** Python's `==` between an enum member's value and a loaded value: numbers compare across
      bool, int and float. */
  predicate PyEqual(a: PyValue, b: PyValue) {
    a == b || (Number(a).Some? && Number(a) == Number(b))
  }

  function Number(v: PyValue): Option<real> {
    match v
    case Bool(b) => Some(if b then 1.0 else 0.0)
    case Int(i) => Some(i as real)
    case Float(x) => Some(x)
    case _ => None
  }

  /** Enum values are strings or integers, and distinct members have distinct values. */
  ghost predicate ValidSchema(c: Schema) {
    forall e <- c.enums ::
      && (forall m <- c.enums[e] :: c.enums[e][m].Str? || c.enums[e][m].Int?)
      && (forall m, n | m in c.enums[e] && n in c.enums[e] && PyEqual(c.enums[e][m], c.enums[e][n]) :: m == n)
  }

  /** The value an enum lookup compares: members of these enums are strings or integers themselves. */
  function Underlying(c: Schema, v: PyValue): PyValue {
    if v.Member? && v.enum in c.enums && v.name in c.enums[v.enum] then c.enums[v.enum][v.name] else v
  }

  /** `_json`. */
  predicate IsJson(v: PyValue) {
    match v
    case List(items) => forall i | 0 <= i < |items| :: IsJson(items[i])
    case Dict(entries) => forall k | k in entries :: IsJson(entries[k])
    case Member(_, _) => false
    case Model(_, _) => false
    case Other => false
    case _ => true
  }

  /** `_check_value`: a nested model is only tested for its class. */
  predicate Check(v: PyValue, t: Annotation) {
    match t
    case AnyT => IsJson(v)
    case OptionalT(inner) => v == Null || Check(v, inner)
    case ListT(item) => v.List? && forall i | 0 <= i < |v.items| :: Check(v.items[i], item)
    case DictT(value) => v.Dict? && forall k | k in v.entries :: Check(v.entries[k], value)
    case EnumT(e) => v.Member? && v.enum == e
    case ModelT(m) => v.Model? && v.class_ == m
    case StrT => v.Str?
    case IntT => v.Int?
    case BoolT => v.Bool?
    case FloatT => v.Float?
  }

  predicate Constructs(c: Schema, class_: string, fields: map<string, PyValue>) {
    && class_ in c.models && fields.Keys == c.models[class_].Keys
    && (forall k | k in fields :: Check(fields[k], c.models[class_][k]))
    && c.contract(Model(class_, fields))
  }

  /** A value the program can hold: every model in it went through its constructor and every
      member belongs to its enum. */
  predicate Constructed(c: Schema, v: PyValue) {
    match v
    case List(items) => forall i | 0 <= i < |items| :: Constructed(c, items[i])
    case Dict(entries) => forall k | k in entries :: Constructed(c, entries[k])
    case Member(e, m) => e in c.enums && m in c.enums[e]
    case Model(class_, fields) => Constructs(c, class_, fields) && forall k | k in fields :: Constructed(c, fields[k])
    case _ => true
  }

  /** `_dump`. */
  function Dump(c: Schema, v: PyValue): PyValue
    requires Constructed(c, v)
  {
    match v
    case Member(e, m) => c.enums[e][m]
    case Model(_, fields) => Dict(map k | k in fields :: Dump(c, fields[k]))
    case List(items) => List(seq(|items|, i requires 0 <= i < |items| => Dump(c, items[i])))
    case Dict(entries) => Dict(map k | k in entries :: Dump(c, entries[k]))
    case _ => v
  }

  ghost predicate MemberFor(c: Schema, e: string, v: PyValue, m: string) {
    e in c.enums && m in c.enums[e] && PyEqual(c.enums[e][m], Underlying(c, v))
  }

  /** Looking a member up by value. */
  ghost function LoadMember(c: Schema, e: string, v: PyValue): Option<PyValue> {
    if exists m :: MemberFor(c, e, v, m)
    then
      var m :| MemberFor(c, e, v, m);
      Some(Member(e, m))
    else None
  }

  /** `_load`; failure is the exception. */
  ghost function Load(c: Schema, v: PyValue, t: Annotation): (r: Option<PyValue>)
    decreases v, t
  {
    match t
    case AnyT => if IsJson(v) then Some(v) else None
    case OptionalT(inner) => if v == Null then Some(Null) else Load(c, v, inner)
    case ListT(item) =>
      if v.List? && forall i | 0 <= i < |v.items| :: Load(c, v.items[i], item).Some?
      then Some(List(seq(|v.items|, i requires 0 <= i < |v.items| && Load(c, v.items[i], item).Some? => Load(c, v.items[i], item).value)))
      else None
    case DictT(value) =>
      if v.Dict? && forall k | k in v.entries :: Load(c, v.entries[k], value).Some?
      then Some(Dict(map k | k in v.entries && Load(c, v.entries[k], value).Some? :: Load(c, v.entries[k], value).value))
      else None
    case EnumT(e) => LoadMember(c, e, v)
    case ModelT(m) =>
      if v.Dict? && m in c.models && v.entries.Keys == c.models[m].Keys
         && forall k | k in v.entries :: Load(c, v.entries[k], c.models[m][k]).Some?
      then
        var fields := map k | k in v.entries && Load(c, v.entries[k], c.models[m][k]).Some? :: Load(c, v.entries[k], c.models[m][k]).value;
        if Constructs(c, m, fields) then Some(Model(m, fields)) else None
      else None
    case _ => if Check(v, t) then Some(v) else None
  }

  lemma MemberUnique(c: Schema, e: string, v: PyValue, m: string)
    requires ValidSchema(c) && MemberFor(c, e, v, m)
    ensures LoadMember(c, e, v) == Some(Member(e, m))
  {
    assert exists n :: MemberFor(c, e, v, n);
    var n := LoadMember(c, e, v).value.name;
    assert MemberFor(c, e, v, n);
    assert PyEqual(c.enums[e][m], c.enums[e][n]);
  }

  /** The scalar annotations are strict: each takes the values of its own type and no other, so
      no value checks against two of them; in particular a boolean is no integer. Loading takes
      the same values, as they are. */
  lemma ScalarsAreStrict(c: Schema, v: PyValue)
    ensures Check(v, StrT) <==> exists s :: v == Str(s)
    ensures Check(v, IntT) <==> exists i :: v == Int(i)
    ensures Check(v, BoolT) <==> exists b :: v == Bool(b)
    ensures Check(v, FloatT) <==> exists x :: v == Float(x)
    ensures forall t, u | t in SCALARS && u in SCALARS && Check(v, t) && Check(v, u) :: t == u
    ensures forall t <- SCALARS :: Load(c, v, t) == if Check(v, t) then Some(v) else None
  {
    if v.Str? {
      assert v == Str(v.s);
    }
    if v.Int? {
      assert v == Int(v.i);
    }
    if v.Bool? {
      assert v == Bool(v.b);
    }
    if v.Float? {
      assert v == Float(v.x);
    }
  }

  /** A value that is there somewhere in another. */
  predicate Part(x: PyValue, v: PyValue)
    decreases v
  {
    || x == v
    || (v.List? && exists i | 0 <= i < |v.items| :: Part(x, v.items[i]))
    || (v.Dict? && exists k | k in v.entries :: Part(x, v.entries[k]))
  }

  predicate Plain(x: PyValue) {
    !x.Member? && !x.Model? && !x.Other?
  }

  /** What `Any` takes: values with nothing in them, at any depth, but scalars, null, lists and
      dictionaries with text keys. */
  lemma {:induction false} AnyIsJson(v: PyValue)
    ensures Check(v, AnyT) <==> forall x | Part(x, v) :: Plain(x)
    decreases v
  {
    match v {
      case List(items) =>
        forall i | 0 <= i < |items| ensures Check(items[i], AnyT) <==> forall x | Part(x, items[i]) :: Plain(x) {
          AnyIsJson(items[i]);
        }
        assert forall i, x | 0 <= i < |items| && Part(x, items[i]) :: Part(x, v);
      case Dict(entries) =>
        forall k | k in entries ensures Check(entries[k], AnyT) <==> forall x | Part(x, entries[k]) :: Plain(x) {
          AnyIsJson(entries[k]);
        }
        assert forall k, x | k in entries && Part(x, entries[k]) :: Part(x, v);
      case _ =>
        assert Part(v, v);
    }
  }

  // ---- dump, then load ----

  lemma {:induction false} DumpOfJson(c: Schema, v: PyValue)
    requires IsJson(v) && Constructed(c, v)
    ensures Dump(c, v) == v
    decreases v
  {
    match v {
      case List(items) =>
        forall i | 0 <= i < |items| ensures Dump(c, items[i]) == items[i] {
          DumpOfJson(c, items[i]);
        }
        assert Dump(c, v).items == items;
      case Dict(entries) =>
        forall k | k in entries ensures Dump(c, entries[k]) == entries[k] {
          DumpOfJson(c, entries[k]);
        }
        assert Dump(c, v).entries == entries;
      case _ =>
    }
  }

  /** Whatever a constructor accepts survives: loading the dump gives the value back. */
  lemma {:induction false} LoadUndoesDump(c: Schema, v: PyValue, t: Annotation)
    requires ValidSchema(c) && Constructed(c, v) && Check(v, t)
    ensures Load(c, Dump(c, v), t) == Some(v)
    decreases v, t, 1
  {
    match t {
      case AnyT => DumpOfJson(c, v);
      case OptionalT(inner) =>
        if v != Null {
          LoadUndoesDump(c, v, inner);
        }
      case ListT(item) => ListRoundTrip(c, v, item);
      case DictT(value) => DictRoundTrip(c, v, value);
      case EnumT(e) =>
        assert MemberFor(c, e, Dump(c, v), v.name);
        MemberUnique(c, e, Dump(c, v), v.name);
      case ModelT(m) => ModelRoundTrip(c, v);
      case _ =>
    }
  }

  lemma {:induction false} ListRoundTrip(c: Schema, v: PyValue, item: Annotation)
    requires ValidSchema(c) && Constructed(c, v) && Check(v, ListT(item))
    ensures Load(c, Dump(c, v), ListT(item)) == Some(v)
    decreases v, ListT(item), 0
  {
    var d := Dump(c, v);
    forall i | 0 <= i < |v.items| ensures Load(c, d.items[i], item) == Some(v.items[i]) {
      LoadUndoesDump(c, v.items[i], item);
    }
    assert Load(c, d, ListT(item)).Some?;
    assert Load(c, d, ListT(item)).value.items == v.items;
  }

  lemma {:induction false} DictRoundTrip(c: Schema, v: PyValue, value: Annotation)
    requires ValidSchema(c) && Constructed(c, v) && Check(v, DictT(value))
    ensures Load(c, Dump(c, v), DictT(value)) == Some(v)
    decreases v, DictT(value), 0
  {
    var d := Dump(c, v);
    forall k | k in v.entries ensures Load(c, d.entries[k], value) == Some(v.entries[k]) {
      LoadUndoesDump(c, v.entries[k], value);
    }
    LoadOfDict(c, d.entries, value, v.entries);
  }

  lemma LoadOfDict(c: Schema, d: map<string, PyValue>, value: Annotation, entries: map<string, PyValue>)
    requires d.Keys == entries.Keys && forall k | k in d :: Load(c, d[k], value) == Some(entries[k])
    ensures Load(c, Dict(d), DictT(value)) == Some(Dict(entries))
  {
    var loaded := Load(c, Dict(d), DictT(value));
    assert loaded.Some?;
    assert loaded.value.entries == entries;
  }

  lemma {:induction false} ModelRoundTrip(c: Schema, v: PyValue)
    requires ValidSchema(c) && Constructed(c, v) && v.Model?
    ensures Load(c, Dump(c, v), ModelT(v.class_)) == Some(v)
    decreases v, ModelT(v.class_), 0
  {
    var d, ts := Dump(c, v), c.models[v.class_];
    forall k | k in v.fields ensures Load(c, d.entries[k], ts[k]) == Some(v.fields[k]) {
      LoadUndoesDump(c, v.fields[k], ts[k]);
    }
    LoadOfModel(c, d.entries, v.class_, v.fields);
  }

  lemma LoadOfModel(c: Schema, d: map<string, PyValue>, m: string, fields: map<string, PyValue>)
    requires Constructs(c, m, fields) && d.Keys == fields.Keys
    requires forall k | k in d :: Load(c, d[k], c.models[m][k]) == Some(fields[k])
    ensures Load(c, Dict(d), ModelT(m)) == Some(Model(m, fields))
  {
    var ts := c.models[m];
    var loaded := map k | k in d && Load(c, d[k], ts[k]).Some? :: Load(c, d[k], ts[k]).value;
    assert loaded == fields;
  }

  // ---- load, then dump ----

  /** Every enum position holds exactly a member's value, not merely one that compares equal. */
  predicate Exact(c: Schema, v: PyValue, t: Annotation)
    decreases v, t
  {
    match t
    case OptionalT(inner) => v == Null || Exact(c, v, inner)
    case ListT(item) => v.List? ==> forall i | 0 <= i < |v.items| :: Exact(c, v.items[i], item)
    case DictT(value) => v.Dict? ==> forall k | k in v.entries :: Exact(c, v.entries[k], value)
    case EnumT(e) => e in c.enums && exists m | m in c.enums[e] :: c.enums[e][m] == v
    case ModelT(m) =>
      v.Dict? && m in c.models ==>
        forall k | k in v.entries && k in c.models[m] :: Exact(c, v.entries[k], c.models[m][k])
    case _ => true
  }

  lemma {:induction false} JsonIsConstructed(c: Schema, v: PyValue)
    requires IsJson(v)
    ensures Constructed(c, v)
    decreases v
  {
    match v {
      case List(items) =>
        forall i | 0 <= i < |items| ensures Constructed(c, items[i]) {
          JsonIsConstructed(c, items[i]);
        }
      case Dict(entries) =>
        forall k | k in entries ensures Constructed(c, entries[k]) {
          JsonIsConstructed(c, entries[k]);
        }
      case _ =>
    }
  }

  ghost predicate Reloads(c: Schema, j: PyValue, t: Annotation, v: PyValue) {
    Check(v, t) && Constructed(c, v) && (Dump(c, v) == j <==> Exact(c, j, t))
  }

  /** Whatever is loaded is a constructed value of its annotation, and dumping it gives the input
      back if and only if the input held exact member values in its enum positions. */
  lemma {:induction false} DumpUndoesLoad(c: Schema, j: PyValue, t: Annotation)
    requires ValidSchema(c) && Load(c, j, t).Some?
    ensures Reloads(c, j, t, Load(c, j, t).value)
    decreases j, t, 1
  {
    match t {
      case AnyT =>
        JsonIsConstructed(c, j);
        DumpOfJson(c, j);
      case OptionalT(inner) =>
        if j != Null {
          DumpUndoesLoad(c, j, inner);
        }
      case ListT(item) => LoadedList(c, j, item);
      case DictT(value) => LoadedDict(c, j, value);
      case EnumT(e) => LoadedMember(c, j, e);
      case ModelT(m) => LoadedModel(c, j, m);
      case _ =>
    }
  }

  lemma LoadedMember(c: Schema, j: PyValue, e: string)
    requires ValidSchema(c) && Load(c, j, EnumT(e)).Some?
    ensures Reloads(c, j, EnumT(e), Load(c, j, EnumT(e)).value)
  {
    var m := Load(c, j, EnumT(e)).value.name;
    assert MemberFor(c, e, j, m);
    forall n | n in c.enums[e] && c.enums[e][n] == j ensures n == m {
      assert MemberFor(c, e, j, n);
      MemberUnique(c, e, j, n);
    }
  }

  lemma {:induction false} LoadedList(c: Schema, j: PyValue, item: Annotation)
    requires ValidSchema(c) && Load(c, j, ListT(item)).Some?
    ensures Reloads(c, j, ListT(item), Load(c, j, ListT(item)).value)
    decreases j, ListT(item), 0
  {
    var v := Load(c, j, ListT(item)).value;
    forall i | 0 <= i < |j.items|
      ensures Load(c, j.items[i], item).Some? && v.items[i] == Load(c, j.items[i], item).value
      ensures Reloads(c, j.items[i], item, v.items[i])
    {
      DumpUndoesLoad(c, j.items[i], item);
    }
    assert Check(v, ListT(item)) && Constructed(c, v);
    var d := Dump(c, v);
    assert d == j <==> d.items == j.items;
    if forall i | 0 <= i < |j.items| :: Exact(c, j.items[i], item) {
      assert d.items == j.items;
    } else {
      var i :| 0 <= i < |j.items| && !Exact(c, j.items[i], item);
      assert d.items[i] != j.items[i];
    }
  }

  lemma {:induction false} LoadedDict(c: Schema, j: PyValue, value: Annotation)
    requires ValidSchema(c) && Load(c, j, DictT(value)).Some?
    ensures Reloads(c, j, DictT(value), Load(c, j, DictT(value)).value)
    decreases j, DictT(value), 0
  {
    var v := Load(c, j, DictT(value)).value;
    forall k | k in j.entries
      ensures k in v.entries && Load(c, j.entries[k], value).Some? && v.entries[k] == Load(c, j.entries[k], value).value
      ensures Reloads(c, j.entries[k], value, v.entries[k])
    {
      DumpUndoesLoad(c, j.entries[k], value);
    }
    assert v.entries.Keys == j.entries.Keys;
    assert Constructed(c, v);
    DumpedDict(c, v, j, value);
  }

  lemma DumpedDict(c: Schema, v: PyValue, j: PyValue, value: Annotation)
    requires v.Dict? && j.Dict? && Constructed(c, v) && v.entries.Keys == j.entries.Keys
    requires forall k | k in j.entries :: Dump(c, v.entries[k]) == j.entries[k] <==> Exact(c, j.entries[k], value)
    ensures Dump(c, v) == j <==> forall k | k in j.entries :: Exact(c, j.entries[k], value)
  {
    var d := Dump(c, v).entries;
    assert forall k | k in d :: d[k] == Dump(c, v.entries[k]);
    SameMaps(d, j.entries);
  }

  lemma {:induction false} LoadedModel(c: Schema, j: PyValue, m: string)
    requires ValidSchema(c) && Load(c, j, ModelT(m)).Some?
    ensures Reloads(c, j, ModelT(m), Load(c, j, ModelT(m)).value)
    decreases j, ModelT(m), 0
  {
    var v, ts := Load(c, j, ModelT(m)).value, c.models[m];
    forall k | k in j.entries
      ensures k in v.fields && Load(c, j.entries[k], ts[k]).Some? && v.fields[k] == Load(c, j.entries[k], ts[k]).value
      ensures Reloads(c, j.entries[k], ts[k], v.fields[k])
    {
      DumpUndoesLoad(c, j.entries[k], ts[k]);
    }
    assert v.fields.Keys == j.entries.Keys;
    assert Constructed(c, v);
    DumpedModel(c, v, j, ts);
  }

  lemma DumpedModel(c: Schema, v: PyValue, j: PyValue, ts: map<string, Annotation>)
    requires v.Model? && j.Dict? && Constructed(c, v) && v.fields.Keys == j.entries.Keys == ts.Keys
    requires forall k | k in j.entries :: Dump(c, v.fields[k]) == j.entries[k] <==> Exact(c, j.entries[k], ts[k])
    ensures Dump(c, v) == j <==> forall k | k in j.entries && k in ts :: Exact(c, j.entries[k], ts[k])
  {
    DumpFields(c, v);
    SameMaps(Dump(c, v).entries, j.entries);
  }

  lemma DumpFields(c: Schema, v: PyValue)
    requires v.Model? && Constructed(c, v)
    ensures Dump(c, v).Dict? && Dump(c, v).entries.Keys == v.fields.Keys
    ensures forall k | k in v.fields :: Dump(c, v).entries[k] == Dump(c, v.fields[k])
  {}

  lemma SameMaps(d: map<string, PyValue>, e: map<string, PyValue>)
    requires d.Keys == e.Keys
    ensures d == e <==> forall k | k in d :: d[k] == e[k]
  {}

  /** With string enums only, as in every model of the wire protocol, any JSON that loads is
      reproduced by dumping the result. */
  lemma StringEnumsReproduceJson(c: Schema, j: PyValue, t: Annotation)
    requires ValidSchema(c) && IsJson(j) && Load(c, j, t).Some?
    requires forall e <- c.enums :: forall m <- c.enums[e] :: c.enums[e][m].Str?
    ensures Constructed(c, Load(c, j, t).value) && Check(Load(c, j, t).value, t)
    ensures Dump(c, Load(c, j, t).value) == j
  {
    DumpUndoesLoad(c, j, t);
    StringsAreExact(c, j, t);
  }

  lemma {:induction false} StringsAreExact(c: Schema, j: PyValue, t: Annotation)
    requires ValidSchema(c) && IsJson(j) && Load(c, j, t).Some?
    requires forall e <- c.enums :: forall m <- c.enums[e] :: c.enums[e][m].Str?
    ensures Exact(c, j, t)
    decreases j, t
  {
    match t {
      case OptionalT(inner) =>
        if j != Null {
          StringsAreExact(c, j, inner);
        }
      case ListT(item) =>
        forall i | 0 <= i < |j.items| ensures Exact(c, j.items[i], item) {
          StringsAreExact(c, j.items[i], item);
        }
      case DictT(value) =>
        forall k | k in j.entries ensures Exact(c, j.entries[k], value) {
          StringsAreExact(c, j.entries[k], value);
        }
      case EnumT(e) =>
        var m := Load(c, j, t).value.name;
        assert MemberFor(c, e, j, m);
        assert c.enums[e][m] == j;
      case ModelT(m) =>
        forall k | k in j.entries && k in c.models[m] ensures Exact(c, j.entries[k], c.models[m][k]) {
          StringsAreExact(c, j.entries[k], c.models[m][k]);
        }
      case _ =>
    }
  }
}
