/**
  What plain JSON says about a value, independently of how it is produced: which member stands under
  which name, and a reader that recovers the value from its JSON, given its shape.
 */
module SerdeReader {
  import opened Common
  import opened SerdeModel

  // ---- Without flattening and secrets ----------------------------------------------------------

  /** The value as plain JSON sees it: secrets opened, flattened values spliced into the object around them. */
  function Exposed(v: Value): Value
    decreases v
  {
    match v
    case Newtype(inner) => Newtype(Exposed(inner))
    case NewtypeVariant(name, inner) => NewtypeVariant(name, Exposed(inner))
    case Sequence(elements) => Sequence(ExposedAll(elements))
    case TupleVariant(name, elements) => TupleVariant(name, ExposedAll(elements))
    case Fields(fields) => Fields(ExposedFields(fields))
    case StructVariant(name, fields) => StructVariant(name, ExposedFields(fields))
    case Secret(inner, mask) => Exposed(inner)
    case _ => v
  }

  function ExposedAll(vs: seq<Value>): seq<Value>
    decreases vs
  {
    if vs == [] then [] else [Exposed(vs[0])] + ExposedAll(vs[1..])
  }

  function ExposedFields(fields: seq<Field>): seq<Field>
    decreases fields
  {
    if fields == [] then [] else ExposedField(fields[0]) + ExposedFields(fields[1..])
  }

  function ExposedField(field: Field): seq<Field>
    decreases field
  {
    match field
    case Entry(key, value) => [Entry(ExposedKey(key), Exposed(value))]
    case Flatten(flat) => Spliced(flat)
  }

  function ExposedKey(key: Key): Key {
    match key
    case Plainly(_) => key
    case SecretKey(inner, mask) => ExposedKey(inner)
  }

  function Named(name: string, value: Value): Field {
    Entry(Plainly(Some(name)), value)
  }

  /** The fields a flattened value stands for. */
  function Spliced(flat: Flat): seq<Field>
    decreases flat
  {
    match flat
    case Absent => []
    case Wrapped(inner) => Spliced(inner)
    case FlatFields(fields) => ExposedFields(fields)
    case FlatVariant(name, value) => [Named(name, Exposed(value))]
    case FlatStructVariant(name, members) => [Named(name, Fields(ExposedMembers(members)))]
    case FlatTupleVariant(name, elements) => [Named(name, Sequence(ExposedAll(elements)))]
    case FlatSecret(inner, mask) => Spliced(inner)
  }

  function ExposedMembers(members: seq<Member>): seq<Field>
    decreases members
  {
    if members == [] then [] else [Named(members[0].name, Exposed(members[0].value))] + ExposedMembers(members[1..])
  }

  // ---- Plain JSON is that of the exposed value ---------------------------------------------------

  function Both(a: Result<map<string, Json>, SerError>, b: Result<map<string, Json>, SerError>): Result<map<string, Json>, SerError> {
    match a case Err(e) => Err(e) case Ok(x) => match b case Err(e) => Err(e) case Ok(y) => Ok(x + y)
  }

  lemma {:induction false} PlainFieldsConcat(a: seq<Field>, b: seq<Field>)
    ensures PlainFields(a + b) == Both(PlainFields(a), PlainFields(b))
    decreases |a|
  {
    if a == [] {
      assert a + b == b;
      var y := PlainFields(b);
      assert y.Ok? ==> map[] + y.value == y.value;
    } else {
      PlainFieldsConcat(a[1..], b);
      assert (a + b)[1..] == a[1..] + b;
      BothTwice(PlainField(a[0]), PlainFields(a[1..]), PlainFields(b));
    }
  }

  lemma BothTwice(a: Result<map<string, Json>, SerError>, b: Result<map<string, Json>, SerError>, c: Result<map<string, Json>, SerError>)
    ensures Both(Both(a, b), c) == Both(a, Both(b, c))
  {
    if a.Ok? && b.Ok? && c.Ok? {
      assert a.value + b.value + c.value == a.value + (b.value + c.value);
    }
  }

  lemma {:induction false} PlainNamed(name: string, value: Value)
    ensures PlainFields([Named(name, value)]) == Single(name, Plain(value))
  {
    var f := Named(name, value);
    assert [f][1..] == [] && PlainFields([]) == Ok(map[]);
    assert PlainField(f) == Single(name, Plain(value));
    if Plain(value).Ok? {
      assert map[name := Plain(value).value] + map[] == map[name := Plain(value).value];
    }
  }

  lemma {:induction false} ExposedKeyText(key: Key)
    ensures KeyText(ExposedKey(key)) == KeyText(key)
  {
    if key.SecretKey? {
      ExposedKeyText(key.inner);
    }
  }

  /** Flattening is splicing, and plain JSON knows no secrets. */
  lemma {:induction false} PlainIsExposed(v: Value)
    ensures Plain(Exposed(v)) == Plain(v)
    decreases v
  {
    match v
    case Newtype(inner) => PlainIsExposed(inner);
    case NewtypeVariant(name, inner) => PlainIsExposed(inner);
    case Sequence(elements) => AllExposed(elements);
    case TupleVariant(name, elements) => AllExposed(elements);
    case Fields(fields) => FieldsExposed(fields);
    case StructVariant(name, fields) => FieldsExposed(fields);
    case Secret(inner, mask) => PlainIsExposed(inner);
    case _ =>
  }

  lemma {:induction false} AllExposed(vs: seq<Value>)
    ensures PlainAll(ExposedAll(vs)) == PlainAll(vs)
    decreases vs
  {
    if vs != [] {
      PlainIsExposed(vs[0]);
      AllExposed(vs[1..]);
      assert ExposedAll(vs)[1..] == ExposedAll(vs[1..]);
    }
  }

  lemma {:induction false} FieldsExposed(fields: seq<Field>)
    ensures PlainFields(ExposedFields(fields)) == PlainFields(fields)
    decreases fields
  {
    if fields != [] {
      FieldExposed(fields[0]);
      FieldsExposed(fields[1..]);
      PlainFieldsConcat(ExposedField(fields[0]), ExposedFields(fields[1..]));
    }
  }

  lemma {:induction false} FieldExposed(field: Field)
    ensures PlainFields(ExposedField(field)) == PlainField(field)
    decreases field
  {
    match field
    case Entry(key, value) =>
      PlainIsExposed(value);
      ExposedKeyText(key);
      EntryAlone(ExposedKey(key), Exposed(value));
    case Flatten(flat) => FlatSpliced(flat);
  }

  lemma {:induction false} EntryAlone(key: Key, value: Value)
    ensures PlainFields([Entry(key, value)]) == PlainField(Entry(key, value))
  {
    var f := Entry(key, value);
    assert [f][1..] == [] && PlainFields([]) == Ok(map[]);
    if PlainField(f).Ok? {
      assert PlainField(f).value + map[] == PlainField(f).value;
    }
  }

  lemma {:induction false} FlatSpliced(flat: Flat)
    ensures PlainFields(Spliced(flat)) == PlainFlat(flat)
    decreases flat
  {
    match flat
    case Absent =>
    case Wrapped(inner) => FlatSpliced(inner);
    case FlatFields(fields) => FieldsExposed(fields);
    case FlatVariant(name, value) =>
      PlainIsExposed(value);
      PlainNamed(name, Exposed(value));
    case FlatStructVariant(name, members) =>
      MembersExposed(members);
      PlainNamed(name, Fields(ExposedMembers(members)));
    case FlatTupleVariant(name, elements) =>
      AllExposed(elements);
      PlainNamed(name, Sequence(ExposedAll(elements)));
    case FlatSecret(inner, mask) => FlatSpliced(inner);
  }

  lemma {:induction false} MembersExposed(members: seq<Member>)
    ensures PlainFields(ExposedMembers(members)) == PlainMembers(members)
    decreases members
  {
    if members != [] {
      var first := Named(members[0].name, Exposed(members[0].value));
      PlainIsExposed(members[0].value);
      MembersExposed(members[1..]);
      assert ExposedMembers(members) == [first] + ExposedMembers(members[1..]);
      PlainFieldsConcat([first], ExposedMembers(members[1..]));
      PlainNamed(members[0].name, Exposed(members[0].value));
    }
  }

  // ---- Reading a value back ----------------------------------------------------------------------

  /** What a reader knows beforehand: the kind of value, and the names of variants and fields. */
  datatype Shape =
    | ABool | AnInt | AFloat | AChar | AStr | ABytes | AUnit | AUnitVariant
    | ANewtype(inner: Shape)
    | ANewtypeVariant(name: string, inner: Shape)
    | ASequence(elements: seq<Shape>)
    | ATupleVariant(name: string, elements: seq<Shape>)
    | AnObject(fields: seq<FieldShape>)
    | AStructVariant(name: string, fields: seq<FieldShape>)

  datatype FieldShape = FieldShape(name: string, shape: Shape)

  /** No secrets, no flattening, and every object's names are texts and distinct. */
  ghost predicate Bare(v: Value)
    decreases v
  {
    match v
    case Newtype(inner) => Bare(inner)
    case NewtypeVariant(name, inner) => Bare(inner)
    case Sequence(elements) => AllBare(elements)
    case TupleVariant(name, elements) => AllBare(elements)
    case Fields(fields) => FieldsBare(fields)
    case StructVariant(name, fields) => FieldsBare(fields)
    case Secret(inner, mask) => false
    case _ => true
  }

  ghost predicate AllBare(vs: seq<Value>)
    decreases vs
  {
    vs == [] || (Bare(vs[0]) && AllBare(vs[1..]))
  }

  ghost predicate FieldsBare(fields: seq<Field>)
    decreases fields
  {
    fields == [] || (FieldBare(fields[0]) && FieldsBare(fields[1..]) && NameOf(fields[0]) !in Names(fields[1..]))
  }

  ghost predicate FieldBare(field: Field)
    decreases field
  {
    IsNamed(field) && Bare(field.value)
  }

  predicate IsNamed(field: Field) {
    field.Entry? && field.key.Plainly? && field.key.text.Some?
  }

  function NameOf(field: Field): string {
    if IsNamed(field) then field.key.text.value else ""
  }

  function Names(fields: seq<Field>): set<string> {
    set k | 0 <= k < |fields| :: NameOf(fields[k])
  }

  function ShapeOf(v: Value): Shape
    decreases v
  {
    match v
    case Bool(_) => ABool
    case Int(_) => AnInt
    case Float(_) => AFloat
    case Char(_) => AChar
    case Str(_) => AStr
    case Bytes(_) => ABytes
    case Unit => AUnit
    case UnitVariant(_) => AUnitVariant
    case Newtype(inner) => ANewtype(ShapeOf(inner))
    case NewtypeVariant(name, inner) => ANewtypeVariant(name, ShapeOf(inner))
    case Sequence(elements) => ASequence(ShapesOf(elements))
    case TupleVariant(name, elements) => ATupleVariant(name, ShapesOf(elements))
    case Fields(fields) => AnObject(FieldShapesOf(fields))
    case StructVariant(name, fields) => AStructVariant(name, FieldShapesOf(fields))
    case Secret(inner, mask) => ShapeOf(inner)
  }

  function ShapesOf(vs: seq<Value>): seq<Shape>
    decreases vs
  {
    if vs == [] then [] else [ShapeOf(vs[0])] + ShapesOf(vs[1..])
  }

  function FieldShapesOf(fields: seq<Field>): seq<FieldShape>
    decreases fields
  {
    if fields == [] then [] else FieldShapeOf(fields[0]) + FieldShapesOf(fields[1..])
  }

  function FieldShapeOf(field: Field): seq<FieldShape>
    decreases field
  {
    if field.Entry? then [FieldShape(NameOf(field), ShapeOf(field.value))] else []
  }

  function Read(shape: Shape, json: Json): Option<Value>
    decreases shape
  {
    match shape
    case ABool => if json.Boolean? then Some(Bool(json.b)) else None
    case AnInt => if json.Integer? then Some(Int(json.n)) else None
    case AFloat => if json.Null? then Some(Float(None)) else if json.Decimal? then Some(Float(Some(json.text))) else None
    case AChar => if json.Text? && |json.s| == 1 then Some(Char(json.s[0])) else None
    case AStr => if json.Text? then Some(Str(json.s)) else None
    case ABytes => if json.Array? then ReadBytes(json.elements) else None
    case AUnit => if json.Null? then Some(Unit) else None
    case AUnitVariant => if json.Text? then Some(UnitVariant(json.s)) else None
    case ANewtype(inner) => (match Read(inner, json) case None => None case Some(v) => Some(Newtype(v)))
    case ANewtypeVariant(name, inner) =>
      (match Read(inner, Content(name, json)) case None => None case Some(v) => Some(NewtypeVariant(name, v)))
    case ASequence(shapes) => (match ReadAll(shapes, json) case None => None case Some(vs) => Some(Sequence(vs)))
    case ATupleVariant(name, shapes) =>
      (match ReadAll(shapes, Content(name, json)) case None => None case Some(vs) => Some(TupleVariant(name, vs)))
    case AnObject(fields) => (match ReadObject(fields, json) case None => None case Some(fs) => Some(Fields(fs)))
    case AStructVariant(name, fields) =>
      (match ReadObject(fields, Content(name, json)) case None => None case Some(fs) => Some(StructVariant(name, fs)))
  }

  /** What an object with this one member holds under it; anything else has no content. */
  function Content(name: string, json: Json): Json {
    if json.Object? && json.members.Keys == {name} then json.members[name] else Null
  }

  function ReadBytes(elements: seq<Json>): Option<Value> {
    if forall k :: 0 <= k < |elements| ==> elements[k].Integer? && elements[k].n >= 0
    then Some(Bytes(seq(|elements|, k requires 0 <= k < |elements| => elements[k].n)))
    else None
  }

  function ReadAll(shapes: seq<Shape>, json: Json): Option<seq<Value>>
    decreases shapes
  {
    if !json.Array? || |json.elements| != |shapes| then None
    else if shapes == [] then Some([])
    else
      match Read(shapes[0], json.elements[0])
      case None => None
      case Some(v) => match ReadAll(shapes[1..], Array(json.elements[1..])) case None => None case Some(vs) => Some([v] + vs)
  }

  function ReadObject(fields: seq<FieldShape>, json: Json): Option<seq<Field>>
    decreases fields, 1
  {
    if json.Object? && json.members.Keys == set k | 0 <= k < |fields| :: fields[k].name
    then ReadFields(fields, json.members) else None
  }

  function ReadFields(fields: seq<FieldShape>, members: map<string, Json>): Option<seq<Field>>
    decreases fields, 0
  {
    if fields == [] then Some([])
    else if fields[0].name !in members then None
    else
      match Read(fields[0].shape, members[fields[0].name])
      case None => None
      case Some(v) =>
        match ReadFields(fields[1..], members) case None => None case Some(rest) => Some([Named(fields[0].name, v)] + rest)
  }

  lemma BytesRead(bytes: seq<nat>)
    ensures ReadBytes(Numbers(bytes)) == Some(Bytes(bytes))
  {
    var elements := Numbers(bytes);
    assert seq(|elements|, k requires 0 <= k < |elements| => elements[k].n) == bytes;
  }

  lemma ContentOf(name: string, json: Json)
    ensures Content(name, Object(map[name := json])) == json
  {
  }

  /** The value serializes, and reading its JSON with its shape gives it back. */
  ghost predicate Recovered(v: Value) {
    Plain(v).Ok? && Read(ShapeOf(v), Plain(v).value) == Some(v)
  }

  ghost predicate AllRecovered(vs: seq<Value>) {
    PlainAll(vs).Ok? && ReadAll(ShapesOf(vs), Array(PlainAll(vs).value)) == Some(vs)
  }

  ghost predicate ObjectRecovered(fs: seq<Field>) {
    PlainFields(fs).Ok? && ReadObject(FieldShapesOf(fs), Object(PlainFields(fs).value)) == Some(fs)
  }

  lemma ScalarReadsBack(v: Value)
    requires v.Bool? || v.Int? || v.Float? || v.Char? || v.Str? || v.Bytes? || v.Unit? || v.UnitVariant?
    ensures Recovered(v)
  {
    if v.Bytes? {
      BytesRead(v.bytes);
    }
  }

  lemma NewtypesReadBack(name: string, inner: Value)
    requires Recovered(inner)
    ensures Recovered(NewtypeVariant(name, inner)) && Recovered(Newtype(inner))
  {
    ContentOf(name, Plain(inner).value);
  }

  lemma TuplesReadBack(name: string, vs: seq<Value>)
    requires AllRecovered(vs)
    ensures Recovered(TupleVariant(name, vs)) && Recovered(Sequence(vs))
  {
    ContentOf(name, Array(PlainAll(vs).value));
  }

  lemma StructsReadBack(name: string, fs: seq<Field>)
    requires ObjectRecovered(fs)
    ensures Recovered(StructVariant(name, fs)) && Recovered(Fields(fs))
  {
    ContentOf(name, Object(PlainFields(fs).value));
  }

  /** A bare value serializes, and its JSON says all of it. */
  lemma {:induction false} ReadsBack(v: Value)
    requires Bare(v)
    ensures Recovered(v)
    decreases v
  {
    match v
    case Newtype(inner) => ReadsBack(inner); NewtypesReadBack("", inner);
    case NewtypeVariant(name, inner) => ReadsBack(inner); NewtypesReadBack(name, inner);
    case Sequence(elements) => AllReadBack(elements); TuplesReadBack("", elements);
    case TupleVariant(name, elements) => AllReadBack(elements); TuplesReadBack(name, elements);
    case Fields(fields) => ObjectReadsBack(fields); StructsReadBack("", fields);
    case StructVariant(name, fields) => ObjectReadsBack(fields); StructsReadBack(name, fields);
    case _ => ScalarReadsBack(v);
  }

  lemma {:induction false} FieldReadsBack(field: Field)
    requires FieldBare(field)
    ensures Recovered(field.value)
    ensures PlainField(field) == Ok(map[NameOf(field) := Plain(field.value).value])
    decreases field
  {
    ReadsBack(field.value);
  }

  lemma {:induction false} HeadReadsBack(vs: seq<Value>)
    requires vs != [] && Recovered(vs[0]) && AllRecovered(vs[1..])
    requires |ShapesOf(vs[1..])| == |PlainAll(vs[1..]).value|
    ensures AllRecovered(vs)
  {
    var first, rest := Plain(vs[0]).value, PlainAll(vs[1..]).value;
    assert PlainAll(vs) == Ok([first] + rest) && ([first] + rest)[1..] == rest;
    assert ShapesOf(vs) == [ShapeOf(vs[0])] + ShapesOf(vs[1..]) && ShapesOf(vs)[1..] == ShapesOf(vs[1..]);
    assert vs == [vs[0]] + vs[1..];
  }

  lemma {:induction false} AllReadBack(vs: seq<Value>)
    requires AllBare(vs)
    ensures AllRecovered(vs)
    decreases vs
  {
    if vs != [] {
      ReadsBack(vs[0]);
      AllReadBack(vs[1..]);
      ShapesLength(vs[1..]);
      AllLength(vs[1..]);
      HeadReadsBack(vs);
    }
  }

  lemma {:induction false} ShapesLength(vs: seq<Value>)
    ensures |ShapesOf(vs)| == |vs|
    decreases |vs|
  {
    if vs != [] {
      ShapesLength(vs[1..]);
    }
  }

  lemma {:induction false} AllLength(vs: seq<Value>)
    requires PlainAll(vs).Ok?
    ensures |PlainAll(vs).value| == |vs|
    decreases |vs|
  {
    if vs != [] {
      AllLength(vs[1..]);
    }
  }

  lemma {:induction false} ObjectReadsBack(fields: seq<Field>)
    requires FieldsBare(fields)
    ensures ObjectRecovered(fields)
    decreases fields, 1
  {
    FieldsSerialize(fields);
    FieldsReadBack(fields, PlainFields(fields).value);
    ShapeNames(fields);
  }

  lemma {:induction false} ShapeNames(fields: seq<Field>)
    requires FieldsBare(fields)
    ensures |FieldShapesOf(fields)| == |fields|
    ensures forall k :: 0 <= k < |fields| ==> FieldShapesOf(fields)[k].name == NameOf(fields[k])
    ensures (set k | 0 <= k < |FieldShapesOf(fields)| :: FieldShapesOf(fields)[k].name) == Names(fields)
    decreases |fields|
  {
    if fields != [] {
      ShapeNames(fields[1..]);
    }
  }

  lemma NamesCons(fields: seq<Field>)
    requires fields != []
    ensures Names(fields) == {NameOf(fields[0])} + Names(fields[1..])
  {
    forall t | t in Names(fields) ensures t == NameOf(fields[0]) || t in Names(fields[1..]) {
      var k :| 0 <= k < |fields| && NameOf(fields[k]) == t;
      assert k > 0 ==> fields[1..][k - 1] == fields[k];
    }
    forall t | t in Names(fields[1..]) ensures t in Names(fields) {
      var k :| 0 <= k < |fields[1..]| && NameOf(fields[1..][k]) == t;
      assert fields[k + 1] == fields[1..][k];
    }
    assert NameOf(fields[0]) in Names(fields);
  }

  /** Bare fields serialize, to exactly the members they name. */
  lemma {:induction false} FieldsSerialize(fields: seq<Field>)
    requires FieldsBare(fields)
    ensures PlainFields(fields).Ok? && PlainFields(fields).value.Keys == Names(fields)
    decreases fields, 0
  {
    if fields != [] {
      FieldReadsBack(fields[0]);
      FieldsSerialize(fields[1..]);
      NamesCons(fields);
    }
  }

  /** `members` holds at least what the fields serialize to. */
  ghost predicate Covers(members: map<string, Json>, fields: seq<Field>) {
    PlainFields(fields).Ok? &&
      forall t :: t in PlainFields(fields).value ==> t in members && members[t] == PlainFields(fields).value[t]
  }

  lemma {:induction false} CoversFirstAndRest(members: map<string, Json>, fields: seq<Field>)
    requires fields != [] && FieldBare(fields[0]) && FieldsBare(fields) && Covers(members, fields)
    requires Recovered(fields[0].value) && PlainField(fields[0]) == Ok(map[NameOf(fields[0]) := Plain(fields[0].value).value])
    requires PlainFields(fields[1..]).Ok? && PlainFields(fields[1..]).value.Keys == Names(fields[1..])
    ensures NameOf(fields[0]) in members && members[NameOf(fields[0])] == Plain(fields[0].value).value
    ensures Covers(members, fields[1..])
  {
    var name, rest := NameOf(fields[0]), PlainFields(fields[1..]).value;
    var all := PlainFields(fields).value;
    assert all == map[name := Plain(fields[0].value).value] + rest;
    assert name in all;
    forall t | t in rest ensures t in members && members[t] == rest[t] {
      assert t in all;
    }
  }

  lemma {:induction false} FirstReadsBack(fields: seq<Field>, members: map<string, Json>)
    requires fields != [] && FieldBare(fields[0]) && Recovered(fields[0].value)
    requires NameOf(fields[0]) in members && members[NameOf(fields[0])] == Plain(fields[0].value).value
    requires ReadFields(FieldShapesOf(fields[1..]), members) == Some(fields[1..])
    ensures ReadFields(FieldShapesOf(fields), members) == Some(fields)
  {
    assert FieldShapesOf(fields) == [FieldShape(NameOf(fields[0]), ShapeOf(fields[0].value))] + FieldShapesOf(fields[1..]);
    assert FieldShapesOf(fields)[1..] == FieldShapesOf(fields[1..]);
    assert fields == [Named(NameOf(fields[0]), fields[0].value)] + fields[1..];
  }

  lemma {:induction false} FieldsReadBack(fields: seq<Field>, members: map<string, Json>)
    requires FieldsBare(fields) && Covers(members, fields)
    ensures ReadFields(FieldShapesOf(fields), members) == Some(fields)
    decreases fields, 0
  {
    if fields != [] {
      FieldReadsBack(fields[0]);
      FieldsSerialize(fields[1..]);
      CoversFirstAndRest(members, fields);
      FieldsReadBack(fields[1..], members);
      FirstReadsBack(fields, members);
    }
  }

  /** Whatever is secret or flattened in a value, its plain JSON says all of what it exposes. */
  lemma PlainReadsBack(v: Value)
    requires Bare(Exposed(v))
    ensures Plain(v).Ok? && Read(ShapeOf(Exposed(v)), Plain(v).value) == Some(Exposed(v))
  {
    PlainIsExposed(v);
    ReadsBack(Exposed(v));
  }

  // ---- Which values are bare -----------------------------------------------------------------------

  lemma ScalarsAreBare(v: Value)
    requires v.Bool? || v.Int? || v.Float? || v.Char? || v.Str? || v.Bytes? || v.Unit? || v.UnitVariant?
    ensures Bare(v)
  {
  }

  /** An object is bare exactly when its fields are entries with distinct plain names and bare values. */
  lemma {:induction false} FieldsBareIff(fields: seq<Field>)
    ensures FieldsBare(fields) <==>
      && (forall k :: 0 <= k < |fields| ==> IsNamed(fields[k]) && Bare(fields[k].value))
      && (forall j, k :: 0 <= j < k < |fields| ==> NameOf(fields[j]) != NameOf(fields[k]))
    decreases |fields|
  {
    if fields != [] {
      FieldsBareIff(fields[1..]);
      forall k | 0 < k < |fields| ensures fields[k] == fields[1..][k - 1] {
      }
      assert NameOf(fields[0]) in Names(fields[1..]) <==> exists k :: 0 < k < |fields| && NameOf(fields[k]) == NameOf(fields[0]) by {
        if exists k :: 0 < k < |fields| && NameOf(fields[k]) == NameOf(fields[0]) {
          var k :| 0 < k < |fields| && NameOf(fields[k]) == NameOf(fields[0]);
          assert fields[1..][k - 1] == fields[k];
        }
      }
    }
  }

  /** A sequence is bare exactly when its elements are. */
  lemma {:induction false} AllBareIff(vs: seq<Value>)
    ensures AllBare(vs) <==> forall k :: 0 <= k < |vs| ==> Bare(vs[k])
    decreases |vs|
  {
    if vs != [] {
      AllBareIff(vs[1..]);
      forall k | 0 < k < |vs| ensures vs[k] == vs[1..][k - 1] {
      }
    }
  }
}
