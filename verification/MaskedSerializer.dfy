/**
  The masking serializer over the serde data model, beside plain JSON serialization. Secrets render as
  their strategy's mask, except where the code does not recognise the serializer it was handed.
 */
module SerdeModel {
  import opened Common

  datatype Json =
    | Null
    | Boolean(b: bool)
    | Integer(n: int)
    | Decimal(text: string)
    | Text(s: string)
    | Array(elements: seq<Json>)
    | Object(members: map<string, Json>)

  datatype SerError = KeyMustBeAString

  /** A map key: the text serde_json gives it, if any, possibly behind a secret. */
  datatype Key = Plainly(text: Option<string>) | SecretKey(inner: Key, mask: string)

  datatype Value =
    | Bool(b: bool)
    | Int(n: int)
    | Float(text: Option<string>)               // none for a number that is not finite
    | Char(c: char)
    | Str(s: string)
    | Bytes(bytes: seq<nat>)
    | Unit                                      // also unit structs and None
    | UnitVariant(name: string)
    | Newtype(inner: Value)                     // also Some
    | NewtypeVariant(name: string, inner: Value)
    | Sequence(elements: seq<Value>)            // also tuples and tuple structs
    | TupleVariant(name: string, elements: seq<Value>)
    | Fields(fields: seq<Field>)                // structs and maps
    | StructVariant(name: string, fields: seq<Field>)
    | Secret(inner: Value, mask: string)        // the mask is what the strategy renders

  datatype Field = Entry(key: Key, value: Value) | Flatten(flat: Flat)

  /** A field of a struct, under its own name. */
  datatype Member = Member(name: string, value: Value)

  /** What can stand in a flattened position. */
  datatype Flat =
    | Absent
    | Wrapped(inner: Flat)                      // Some, or a newtype struct
    | FlatFields(fields: seq<Field>)
    | FlatVariant(name: string, value: Value)                  // a newtype variant, or a struct variant with a flattened field
    | FlatStructVariant(name: string, members: seq<Member>)    // any other struct variant: buffered before it reaches the map
    | FlatTupleVariant(name: string, elements: seq<Value>)     // likewise
    | FlatSecret(inner: Flat, mask: string)

  /** The key serializer knows nothing of masking: a secret key is serialized as itself. */
  function KeyText(key: Key): Result<string, SerError> {
    match key
    case Plainly(None) => Err(KeyMustBeAString)
    case Plainly(Some(text)) => Ok(text)
    case SecretKey(inner, mask) => KeyText(inner)
  }

  // ---- Plain JSON --------------------------------------------------------------------------

  function Plain(v: Value): Result<Json, SerError>
    decreases v
  {
    match v
    case Bool(b) => Ok(Boolean(b))
    case Int(n) => Ok(Integer(n))
    case Float(None) => Ok(Null)
    case Float(Some(text)) => Ok(Decimal(text))
    case Char(c) => Ok(Text([c]))
    case Str(s) => Ok(Text(s))
    case Bytes(bytes) => Ok(Array(Numbers(bytes)))
    case Unit => Ok(Null)
    case UnitVariant(name) => Ok(Text(name))
    case Newtype(inner) => Plain(inner)
    case NewtypeVariant(name, inner) => Tagged(name, Plain(inner))
    case Sequence(elements) => AsArray(PlainAll(elements))
    case TupleVariant(name, elements) => Tagged(name, AsArray(PlainAll(elements)))
    case Fields(fields) => AsObject(PlainFields(fields))
    case StructVariant(name, fields) => Tagged(name, AsObject(PlainFields(fields)))
    case Secret(inner, mask) => Plain(inner)
  }

  function PlainAll(vs: seq<Value>): Result<seq<Json>, SerError>
    decreases vs
  {
    if vs == [] then Ok([]) else
      match Plain(vs[0])
      case Err(e) => Err(e)
      case Ok(first) => match PlainAll(vs[1..]) case Err(e) => Err(e) case Ok(rest) => Ok([first] + rest)
  }

  /** Later members win. */
  function PlainFields(fields: seq<Field>): Result<map<string, Json>, SerError>
    decreases fields
  {
    if fields == [] then Ok(map[]) else
      match PlainField(fields[0])
      case Err(e) => Err(e)
      case Ok(first) => match PlainFields(fields[1..]) case Err(e) => Err(e) case Ok(rest) => Ok(first + rest)
  }

  function PlainField(field: Field): Result<map<string, Json>, SerError>
    decreases field
  {
    match field
    case Flatten(flat) => PlainFlat(flat)
    case Entry(key, value) =>
      match KeyText(key)
      case Err(e) => Err(e)
      case Ok(text) => Single(text, Plain(value))
  }

  function PlainFlat(flat: Flat): Result<map<string, Json>, SerError>
    decreases flat
  {
    match flat
    case Absent => Ok(map[])
    case Wrapped(inner) => PlainFlat(inner)
    case FlatFields(fields) => PlainFields(fields)
    case FlatVariant(name, value) => Single(name, Plain(value))
    case FlatStructVariant(name, members) => Single(name, AsObject(PlainMembers(members)))
    case FlatTupleVariant(name, elements) => Single(name, AsArray(PlainAll(elements)))
    case FlatSecret(inner, mask) => PlainFlat(inner)
  }

  function PlainMembers(members: seq<Member>): Result<map<string, Json>, SerError>
    decreases members
  {
    if members == [] then Ok(map[]) else
      match Plain(members[0].value)
      case Err(e) => Err(e)
      case Ok(first) =>
        match PlainMembers(members[1..]) case Err(e) => Err(e) case Ok(rest) => Ok(map[members[0].name := first] + rest)
  }

  function Numbers(bytes: seq<nat>): seq<Json> {
    seq(|bytes|, i requires 0 <= i < |bytes| => Integer(bytes[i]))
  }

  function Single(name: string, r: Result<Json, SerError>): Result<map<string, Json>, SerError> {
    match r case Err(e) => Err(e) case Ok(json) => Ok(map[name := json])
  }

  function Tagged(name: string, r: Result<Json, SerError>): Result<Json, SerError> {
    match r case Err(e) => Err(e) case Ok(json) => Ok(Object(map[name := json]))
  }

  function AsArray(r: Result<seq<Json>, SerError>): Result<Json, SerError> {
    match r case Err(e) => Err(e) case Ok(elements) => Ok(Array(elements))
  }

  function AsObject(r: Result<map<string, Json>, SerError>): Result<Json, SerError> {
    match r case Err(e) => Err(e) case Ok(members) => Ok(Object(members))
  }
}

module MaskedSerializer {
  import opened Common
  import opened SerdeModel

  // ---- What the masking serializer lets through ---------------------------------------------

  /**
    The value whose plain JSON is the masked JSON: each recognised secret replaced by its mask, and
    by nothing at all where it is flattened directly into a masked object. `nested` says that the
    enclosing object is itself being flattened; there a flattened secret is not recognised. Neither is
    any secret in the fields of a flattened struct or tuple variant, which pass through a buffer of
    their own. Keys are left as they are.
   */
  function Redacted(v: Value): Value
    decreases v
  {
    match v
    case Newtype(inner) => Newtype(Redacted(inner))
    case NewtypeVariant(name, inner) => NewtypeVariant(name, Redacted(inner))
    case Sequence(elements) => Sequence(RedactedAll(elements))
    case TupleVariant(name, elements) => TupleVariant(name, RedactedAll(elements))
    case Fields(fields) => Fields(RedactedFields(fields, false))
    case StructVariant(name, fields) => StructVariant(name, RedactedFields(fields, false))
    case Secret(inner, mask) => Str(mask)
    case _ => v
  }

  function RedactedAll(vs: seq<Value>): seq<Value>
    decreases vs
  {
    if vs == [] then [] else [Redacted(vs[0])] + RedactedAll(vs[1..])
  }

  function RedactedFields(fields: seq<Field>, nested: bool): seq<Field>
    decreases fields
  {
    if fields == [] then [] else [RedactedField(fields[0], nested)] + RedactedFields(fields[1..], nested)
  }

  function RedactedField(field: Field, nested: bool): Field
    decreases field
  {
    match field
    case Entry(key, value) => Entry(key, Redacted(value))
    case Flatten(flat) => Flatten(RedactedFlat(flat, nested))
  }

  function RedactedFlat(flat: Flat, nested: bool): Flat
    decreases flat
  {
    match flat
    case Absent => Absent
    case Wrapped(inner) => Wrapped(RedactedFlat(inner, nested))
    case FlatFields(fields) => FlatFields(RedactedFields(fields, true))
    case FlatVariant(name, value) => FlatVariant(name, Redacted(value))
    case FlatStructVariant(_, _) => flat
    case FlatTupleVariant(_, _) => flat
    case FlatSecret(inner, mask) => if nested then FlatSecret(RedactedFlat(inner, nested), mask) else Absent
  }

  // ---- The serializer -----------------------------------------------------------------------

  /** The value serializer: its accumulators are threaded through. */
  function Masked(v: Value): Result<Json, SerError>
    decreases v
  {
    match v
    case Bool(b) => Ok(Boolean(b))
    case Int(n) => Ok(Integer(n))
    case Float(None) => Ok(Null)
    case Float(Some(text)) => Ok(Decimal(text))
    case Char(c) => Ok(Text([c]))
    case Str(s) => Ok(Text(s))
    case Bytes(bytes) => Ok(Array(Numbers(bytes)))
    case Unit => Ok(Null)
    case UnitVariant(name) => Ok(Text(name))
    case Newtype(inner) => Masked(inner)
    case NewtypeVariant(name, inner) =>
      (match Masked(inner) case Err(e) => Err(e) case Ok(json) => Ok(Object(map[name := json])))
    case Sequence(elements) =>
      (match Push(elements, []) case Err(e) => Err(e) case Ok(vec) => Ok(Array(vec)))
    case TupleVariant(name, elements) =>
      (match Push(elements, []) case Err(e) => Err(e) case Ok(vec) => Ok(Object(map[name := Array(vec)])))
    case Fields(fields) =>
      (match Insert(fields, false, map[]) case Err(e) => Err(e) case Ok(members) => Ok(Object(members)))
    case StructVariant(name, fields) =>
      (match Insert(fields, false, map[]) case Err(e) => Err(e) case Ok(members) => Ok(Object(map[name := Object(members)])))
    case Secret(inner, mask) => Ok(Text(mask))
  }

  /** `SerializeVec`: one pushed element after the other. */
  function Push(vs: seq<Value>, vec: seq<Json>): Result<seq<Json>, SerError>
    decreases vs
  {
    if vs == [] then Ok(vec) else
      match Masked(vs[0])
      case Err(e) => Err(e)
      case Ok(json) => Push(vs[1..], vec + [json])
  }

  /** `SerializeMap`: one inserted member after the other. */
  function Insert(fields: seq<Field>, nested: bool, members: map<string, Json>): Result<map<string, Json>, SerError>
    decreases fields
  {
    if fields == [] then Ok(members) else
      match InsertOne(fields[0], nested, members)
      case Err(e) => Err(e)
      case Ok(more) => Insert(fields[1..], nested, more)
  }

  function InsertOne(field: Field, nested: bool, members: map<string, Json>): Result<map<string, Json>, SerError>
    decreases field
  {
    match field
    case Flatten(flat) => InsertFlat(flat, nested, members)
    case Entry(key, value) =>
      match KeyText(key)
      case Err(e) => Err(e)
      case Ok(text) => match Masked(value) case Err(e) => Err(e) case Ok(json) => Ok(members[text := json])
  }

  /** A flattened value writes into the map of the object around it. */
  function InsertFlat(flat: Flat, nested: bool, members: map<string, Json>): Result<map<string, Json>, SerError>
    decreases flat
  {
    match flat
    case Absent => Ok(members)
    case Wrapped(inner) => InsertFlat(inner, nested, members)
    case FlatFields(fields) => Insert(fields, true, members)
    case FlatVariant(name, value) =>
      (match Masked(value) case Err(e) => Err(e) case Ok(json) => Ok(members[name := json]))
    case FlatStructVariant(name, inner) =>
      (match PlainMembers(inner) case Err(e) => Err(e) case Ok(buffered) => Ok(members[name := Object(buffered)]))
    case FlatTupleVariant(name, elements) =>
      (match PlainAll(elements) case Err(e) => Err(e) case Ok(buffered) => Ok(members[name := Array(buffered)]))
    case FlatSecret(inner, mask) => if nested then InsertFlat(inner, nested, members) else Ok(members)
  }

  // ---- It agrees with plain JSON of the redacted value ----------------------------------------

  function Before(vec: seq<Json>, r: Result<seq<Json>, SerError>): Result<seq<Json>, SerError> {
    match r case Err(e) => Err(e) case Ok(rest) => Ok(vec + rest)
  }

  function Under(members: map<string, Json>, r: Result<map<string, Json>, SerError>): Result<map<string, Json>, SerError> {
    match r case Err(e) => Err(e) case Ok(rest) => Ok(members + rest)
  }

  lemma UnderTwice(members: map<string, Json>, more: map<string, Json>, r: Result<map<string, Json>, SerError>)
    ensures Under(members + more, r) == Under(members, Under(more, r))
  {
    assert r.Ok? ==> members + more + r.value == members + (more + r.value);
  }

  /** Masking is redacting followed by plain serialization, for every value, errors included. */
  lemma {:induction false} MaskedIsPlainOfRedacted(v: Value)
    ensures Masked(v) == Plain(Redacted(v))
    decreases v
  {
    match v
    case Newtype(inner) => MaskedIsPlainOfRedacted(inner);
    case NewtypeVariant(name, inner) => MaskedIsPlainOfRedacted(inner);
    case Sequence(elements) => FreshPush(elements);
    case TupleVariant(name, elements) => FreshPush(elements);
    case Fields(fields) => FreshInsert(fields);
    case StructVariant(name, fields) => FreshInsert(fields);
    case _ =>
  }

  lemma {:induction false} FreshPush(vs: seq<Value>)
    ensures Push(vs, []) == PlainAll(RedactedAll(vs))
    decreases vs, 1
  {
    PushIsPlain(vs, []);
    var rest := PlainAll(RedactedAll(vs));
    assert rest.Ok? ==> [] + rest.value == rest.value;
  }

  lemma {:induction false} FreshInsert(fields: seq<Field>)
    ensures Insert(fields, false, map[]) == PlainFields(RedactedFields(fields, false))
    decreases fields, 1
  {
    InsertIsPlain(fields, false, map[]);
    var rest := PlainFields(RedactedFields(fields, false));
    assert rest.Ok? ==> map[] + rest.value == rest.value;
  }

  lemma {:induction false} PushIsPlain(vs: seq<Value>, vec: seq<Json>)
    ensures Push(vs, vec) == Before(vec, PlainAll(RedactedAll(vs)))
    decreases vs, 0
  {
    if vs != [] {
      MaskedIsPlainOfRedacted(vs[0]);
      assert RedactedAll(vs)[1..] == RedactedAll(vs[1..]);
      if Masked(vs[0]).Ok? {
        var json := Masked(vs[0]).value;
        PushIsPlain(vs[1..], vec + [json]);
        if PlainAll(RedactedAll(vs[1..])).Ok? {
          var rest := PlainAll(RedactedAll(vs[1..])).value;
          assert vec + ([json] + rest) == vec + [json] + rest;
        }
      }
    } else {
      assert vec + [] == vec;
    }
  }

  lemma {:induction false} InsertIsPlain(fields: seq<Field>, nested: bool, members: map<string, Json>)
    ensures Insert(fields, nested, members) == Under(members, PlainFields(RedactedFields(fields, nested)))
    decreases fields, 0
  {
    if fields != [] {
      InsertOneIsPlain(fields[0], nested, members);
      assert RedactedFields(fields, nested)[1..] == RedactedFields(fields[1..], nested);
      var first := PlainField(RedactedField(fields[0], nested));
      if first.Ok? {
        InsertIsPlain(fields[1..], nested, members + first.value);
        UnderTwice(members, first.value, PlainFields(RedactedFields(fields[1..], nested)));
      }
    } else {
      assert members + map[] == members;
    }
  }

  lemma {:induction false} InsertOneIsPlain(field: Field, nested: bool, members: map<string, Json>)
    ensures InsertOne(field, nested, members) == Under(members, PlainField(RedactedField(field, nested)))
    decreases field
  {
    match field
    case Flatten(flat) => InsertFlatIsPlain(flat, nested, members);
    case Entry(key, value) =>
      MaskedIsPlainOfRedacted(value);
      if KeyText(key).Ok? && Masked(value).Ok? {
        assert members + map[KeyText(key).value := Masked(value).value] == members[KeyText(key).value := Masked(value).value];
      }
  }

  lemma {:induction false} InsertFlatIsPlain(flat: Flat, nested: bool, members: map<string, Json>)
    ensures InsertFlat(flat, nested, members) == Under(members, PlainFlat(RedactedFlat(flat, nested)))
    decreases flat
  {
    match flat
    case Absent => assert members + map[] == members;
    case Wrapped(inner) => InsertFlatIsPlain(inner, nested, members);
    case FlatFields(fields) => InsertIsPlain(fields, true, members);
    case FlatVariant(name, value) =>
      MaskedIsPlainOfRedacted(value);
      if Masked(value).Ok? {
        assert members + map[name := Masked(value).value] == members[name := Masked(value).value];
      }
    case FlatStructVariant(name, inner) =>
      if PlainMembers(inner).Ok? {
        var json := Object(PlainMembers(inner).value);
        assert members + map[name := json] == members[name := json];
      }
    case FlatTupleVariant(name, elements) =>
      if PlainAll(elements).Ok? {
        var json := Array(PlainAll(elements).value);
        assert members + map[name := json] == members[name := json];
      }
    case FlatSecret(inner, mask) =>
      if nested {
        InsertFlatIsPlain(inner, nested, members);
      } else {
        assert members + map[] == members;
      }
  }

  // ---- Where secrets are hidden ---------------------------------------------------------------

  ghost predicate SecretFree(v: Value)
    decreases v
  {
    match v
    case Newtype(inner) => SecretFree(inner)
    case NewtypeVariant(name, inner) => SecretFree(inner)
    case Sequence(elements) => AllSecretFree(elements)
    case TupleVariant(name, elements) => AllSecretFree(elements)
    case Fields(fields) => FieldsSecretFree(fields)
    case StructVariant(name, fields) => FieldsSecretFree(fields)
    case Secret(inner, mask) => false
    case _ => true
  }

  ghost predicate AllSecretFree(vs: seq<Value>)
    decreases vs
  {
    vs == [] || (SecretFree(vs[0]) && AllSecretFree(vs[1..]))
  }

  ghost predicate FieldsSecretFree(fields: seq<Field>)
    decreases fields
  {
    fields == [] || (FieldSecretFree(fields[0]) && FieldsSecretFree(fields[1..]))
  }

  ghost predicate FieldSecretFree(field: Field)
    decreases field
  {
    match field
    case Entry(key, value) => key.Plainly? && SecretFree(value)
    case Flatten(flat) => FlatSecretFree(flat)
  }

  ghost predicate FlatSecretFree(flat: Flat)
    decreases flat
  {
    match flat
    case Absent => true
    case Wrapped(inner) => FlatSecretFree(inner)
    case FlatFields(fields) => FieldsSecretFree(fields)
    case FlatVariant(name, value) => SecretFree(value)
    case FlatStructVariant(name, members) => MembersSecretFree(members)
    case FlatTupleVariant(name, elements) => AllSecretFree(elements)
    case FlatSecret(inner, mask) => false
  }

  ghost predicate MembersSecretFree(members: seq<Member>)
    decreases members
  {
    members == [] || (SecretFree(members[0].value) && MembersSecretFree(members[1..]))
  }

  /**
    No secret is a map key, none is flattened into an object that is itself flattened, and none is in
    the fields of a flattened struct or tuple variant.
   */
  ghost predicate Maskable(v: Value)
    decreases v
  {
    match v
    case Newtype(inner) => Maskable(inner)
    case NewtypeVariant(name, inner) => Maskable(inner)
    case Sequence(elements) => AllMaskable(elements)
    case TupleVariant(name, elements) => AllMaskable(elements)
    case Fields(fields) => FieldsMaskable(fields, false)
    case StructVariant(name, fields) => FieldsMaskable(fields, false)
    case _ => true
  }

  ghost predicate AllMaskable(vs: seq<Value>)
    decreases vs
  {
    vs == [] || (Maskable(vs[0]) && AllMaskable(vs[1..]))
  }

  ghost predicate FieldsMaskable(fields: seq<Field>, nested: bool)
    decreases fields
  {
    fields == [] || (FieldMaskable(fields[0], nested) && FieldsMaskable(fields[1..], nested))
  }

  ghost predicate FieldMaskable(field: Field, nested: bool)
    decreases field
  {
    match field
    case Entry(key, value) => key.Plainly? && Maskable(value)
    case Flatten(flat) => FlatMaskable(flat, nested)
  }

  ghost predicate FlatMaskable(flat: Flat, nested: bool)
    decreases flat
  {
    match flat
    case Absent => true
    case Wrapped(inner) => FlatMaskable(inner, nested)
    case FlatFields(fields) => FieldsMaskable(fields, true)
    case FlatVariant(name, value) => Maskable(value)
    case FlatStructVariant(name, members) => MembersSecretFree(members)
    case FlatTupleVariant(name, elements) => AllSecretFree(elements)
    case FlatSecret(inner, mask) => !nested
  }

  /** Redaction removes every secret exactly from the maskable values. */
  lemma {:induction false} RedactedIsSecretFreeIffMaskable(v: Value)
    ensures SecretFree(Redacted(v)) <==> Maskable(v)
    decreases v
  {
    match v
    case Newtype(inner) => RedactedIsSecretFreeIffMaskable(inner);
    case NewtypeVariant(name, inner) => RedactedIsSecretFreeIffMaskable(inner);
    case Sequence(elements) => AllRedacted(elements);
    case TupleVariant(name, elements) => AllRedacted(elements);
    case Fields(fields) => FieldsRedacted(fields, false);
    case StructVariant(name, fields) => FieldsRedacted(fields, false);
    case _ =>
  }

  lemma {:induction false} AllRedacted(vs: seq<Value>)
    ensures AllSecretFree(RedactedAll(vs)) <==> AllMaskable(vs)
    decreases vs
  {
    if vs != [] {
      RedactedIsSecretFreeIffMaskable(vs[0]);
      AllRedacted(vs[1..]);
      assert RedactedAll(vs)[1..] == RedactedAll(vs[1..]);
    }
  }

  lemma {:induction false} FieldsRedacted(fields: seq<Field>, nested: bool)
    ensures FieldsSecretFree(RedactedFields(fields, nested)) <==> FieldsMaskable(fields, nested)
    decreases fields
  {
    if fields != [] {
      FieldRedacted(fields[0], nested);
      FieldsRedacted(fields[1..], nested);
      assert RedactedFields(fields, nested)[1..] == RedactedFields(fields[1..], nested);
    }
  }

  lemma {:induction false} FieldRedacted(field: Field, nested: bool)
    ensures FieldSecretFree(RedactedField(field, nested)) <==> FieldMaskable(field, nested)
    decreases field
  {
    match field
    case Entry(key, value) => RedactedIsSecretFreeIffMaskable(value);
    case Flatten(flat) => FlatRedacted(flat, nested);
  }

  lemma {:induction false} FlatRedacted(flat: Flat, nested: bool)
    ensures FlatSecretFree(RedactedFlat(flat, nested)) <==> FlatMaskable(flat, nested)
    decreases flat
  {
    match flat
    case Absent =>
    case Wrapped(inner) => FlatRedacted(inner, nested);
    case FlatFields(fields) => FieldsRedacted(fields, true);
    case FlatVariant(name, value) => RedactedIsSecretFreeIffMaskable(value);
    case _ =>
  }

  // ---- Secret-free values are serialized as they are -------------------------------------------

  lemma {:induction false} RedactedKeepsSecretFree(v: Value)
    requires SecretFree(v)
    ensures Redacted(v) == v
    decreases v
  {
    match v
    case Newtype(inner) => RedactedKeepsSecretFree(inner);
    case NewtypeVariant(name, inner) => RedactedKeepsSecretFree(inner);
    case Sequence(elements) => AllKept(elements);
    case TupleVariant(name, elements) => AllKept(elements);
    case Fields(fields) => FieldsKept(fields, false);
    case StructVariant(name, fields) => FieldsKept(fields, false);
    case _ =>
  }

  lemma {:induction false} AllKept(vs: seq<Value>)
    requires AllSecretFree(vs)
    ensures RedactedAll(vs) == vs
    decreases vs
  {
    if vs != [] {
      RedactedKeepsSecretFree(vs[0]);
      AllKept(vs[1..]);
    }
  }

  lemma {:induction false} FieldsKept(fields: seq<Field>, nested: bool)
    requires FieldsSecretFree(fields)
    ensures RedactedFields(fields, nested) == fields
    decreases fields
  {
    if fields != [] {
      FieldKept(fields[0], nested);
      FieldsKept(fields[1..], nested);
    }
  }

  lemma {:induction false} FieldKept(field: Field, nested: bool)
    requires FieldSecretFree(field)
    ensures RedactedField(field, nested) == field
    decreases field
  {
    match field
    case Entry(key, value) => RedactedKeepsSecretFree(value);
    case Flatten(flat) => FlatKept(flat, nested);
  }

  lemma {:induction false} FlatKept(flat: Flat, nested: bool)
    requires FlatSecretFree(flat)
    ensures RedactedFlat(flat, nested) == flat
    decreases flat
  {
    match flat
    case Absent =>
    case Wrapped(inner) => FlatKept(inner, nested);
    case FlatFields(fields) => FieldsKept(fields, true);
    case FlatVariant(name, value) => RedactedKeepsSecretFree(value);
    case _ =>
  }

  /** On values without secrets the masked JSON is the plain JSON. */
  lemma SecretFreeIsPlain(v: Value)
    requires SecretFree(v)
    ensures Masked(v) == Plain(v)
  {
    MaskedIsPlainOfRedacted(v);
    RedactedKeepsSecretFree(v);
  }

  // ---- Dependence on secrets -------------------------------------------------------------------

  /** The same value but for what the secrets hold; their masks are the same. */
  ghost predicate Alike(v: Value, w: Value)
    decreases v
  {
    match v
    case Newtype(inner) => w.Newtype? && Alike(inner, w.inner)
    case NewtypeVariant(name, inner) => w.NewtypeVariant? && w.name == name && Alike(inner, w.inner)
    case Sequence(elements) => w.Sequence? && AllAlike(elements, w.elements)
    case TupleVariant(name, elements) => w.TupleVariant? && w.name == name && AllAlike(elements, w.elements)
    case Fields(fields) => w.Fields? && FieldsAlike(fields, w.fields)
    case StructVariant(name, fields) => w.StructVariant? && w.name == name && FieldsAlike(fields, w.fields)
    case Secret(inner, mask) => w.Secret? && w.mask == mask
    case _ => w == v
  }

  ghost predicate AllAlike(vs: seq<Value>, ws: seq<Value>)
    decreases vs
  {
    |vs| == |ws| && (vs == [] || (Alike(vs[0], ws[0]) && AllAlike(vs[1..], ws[1..])))
  }

  ghost predicate FieldsAlike(fs: seq<Field>, gs: seq<Field>)
    decreases fs
  {
    |fs| == |gs| && (fs == [] || (FieldAlike(fs[0], gs[0]) && FieldsAlike(fs[1..], gs[1..])))
  }

  ghost predicate FieldAlike(f: Field, g: Field)
    decreases f
  {
    match f
    case Entry(key, value) => g.Entry? && KeyAlike(key, g.key) && Alike(value, g.value)
    case Flatten(flat) => g.Flatten? && FlatAlike(flat, g.flat)
  }

  ghost predicate KeyAlike(k: Key, l: Key) {
    match k
    case Plainly(text) => l == k
    case SecretKey(inner, mask) => l.SecretKey? && l.mask == mask
  }

  ghost predicate FlatAlike(f: Flat, g: Flat)
    decreases f
  {
    match f
    case Absent => g.Absent?
    case Wrapped(inner) => g.Wrapped? && FlatAlike(inner, g.inner)
    case FlatFields(fields) => g.FlatFields? && FieldsAlike(fields, g.fields)
    case FlatVariant(name, value) => g.FlatVariant? && g.name == name && Alike(value, g.value)
    case FlatStructVariant(name, members) => g.FlatStructVariant? && g.name == name && MembersAlike(members, g.members)
    case FlatTupleVariant(name, elements) => g.FlatTupleVariant? && g.name == name && AllAlike(elements, g.elements)
    case FlatSecret(inner, mask) => g.FlatSecret? && g.mask == mask
  }

  ghost predicate MembersAlike(ms: seq<Member>, ns: seq<Member>)
    decreases ms
  {
    |ms| == |ns| &&
      (ms == [] || (ms[0].name == ns[0].name && Alike(ms[0].value, ns[0].value) && MembersAlike(ms[1..], ns[1..])))
  }

  /** Without secrets there is nothing to differ in. */
  lemma {:induction false} AlikeAreEqual(v: Value, w: Value)
    requires SecretFree(v) && Alike(v, w)
    ensures v == w
    decreases v
  {
    match v
    case Newtype(inner) => AlikeAreEqual(inner, w.inner);
    case NewtypeVariant(name, inner) => AlikeAreEqual(inner, w.inner);
    case Sequence(elements) => AllAlikeAreEqual(elements, w.elements);
    case TupleVariant(name, elements) => AllAlikeAreEqual(elements, w.elements);
    case Fields(fields) => FieldsAlikeAreEqual(fields, w.fields);
    case StructVariant(name, fields) => FieldsAlikeAreEqual(fields, w.fields);
    case _ =>
  }

  lemma {:induction false} AllAlikeAreEqual(vs: seq<Value>, ws: seq<Value>)
    requires AllSecretFree(vs) && AllAlike(vs, ws)
    ensures vs == ws
    decreases vs
  {
    if vs != [] {
      AlikeAreEqual(vs[0], ws[0]);
      AllAlikeAreEqual(vs[1..], ws[1..]);
      assert vs == [vs[0]] + vs[1..] && ws == [ws[0]] + ws[1..];
    }
  }

  lemma {:induction false} FieldsAlikeAreEqual(fs: seq<Field>, gs: seq<Field>)
    requires FieldsSecretFree(fs) && FieldsAlike(fs, gs)
    ensures fs == gs
    decreases fs
  {
    if fs != [] {
      FieldAlikeAreEqual(fs[0], gs[0]);
      FieldsAlikeAreEqual(fs[1..], gs[1..]);
      assert fs == [fs[0]] + fs[1..] && gs == [gs[0]] + gs[1..];
    }
  }

  lemma {:induction false} MembersAlikeAreEqual(ms: seq<Member>, ns: seq<Member>)
    requires MembersSecretFree(ms) && MembersAlike(ms, ns)
    ensures ms == ns
    decreases ms
  {
    if ms != [] {
      AlikeAreEqual(ms[0].value, ns[0].value);
      MembersAlikeAreEqual(ms[1..], ns[1..]);
      assert ms == [ms[0]] + ms[1..] && ns == [ns[0]] + ns[1..];
    }
  }

  lemma {:induction false} FieldAlikeAreEqual(f: Field, g: Field)
    requires FieldSecretFree(f) && FieldAlike(f, g)
    ensures f == g
    decreases f
  {
    match f
    case Entry(key, value) => AlikeAreEqual(value, g.value);
    case Flatten(flat) => FlatAlikeAreEqual(flat, g.flat);
  }

  lemma {:induction false} FlatAlikeAreEqual(f: Flat, g: Flat)
    requires FlatSecretFree(f) && FlatAlike(f, g)
    ensures f == g
    decreases f
  {
    match f
    case Absent =>
    case Wrapped(inner) => FlatAlikeAreEqual(inner, g.inner);
    case FlatFields(fields) => FieldsAlikeAreEqual(fields, g.fields);
    case FlatVariant(name, value) => AlikeAreEqual(value, g.value);
    case FlatStructVariant(name, members) => MembersAlikeAreEqual(members, g.members);
    case FlatTupleVariant(name, elements) => AllAlikeAreEqual(elements, g.elements);
  }

  lemma {:induction false} AlikeRedactsAlike(v: Value, w: Value)
    requires Maskable(v) && Alike(v, w)
    ensures Redacted(v) == Redacted(w)
    decreases v
  {
    match v
    case Newtype(inner) => AlikeRedactsAlike(inner, w.inner);
    case NewtypeVariant(name, inner) => AlikeRedactsAlike(inner, w.inner);
    case Sequence(elements) => AllRedactAlike(elements, w.elements);
    case TupleVariant(name, elements) => AllRedactAlike(elements, w.elements);
    case Fields(fields) => FieldsRedactAlike(fields, w.fields, false);
    case StructVariant(name, fields) => FieldsRedactAlike(fields, w.fields, false);
    case _ =>
  }

  lemma {:induction false} AllRedactAlike(vs: seq<Value>, ws: seq<Value>)
    requires AllMaskable(vs) && AllAlike(vs, ws)
    ensures RedactedAll(vs) == RedactedAll(ws)
    decreases vs
  {
    if vs != [] {
      AlikeRedactsAlike(vs[0], ws[0]);
      AllRedactAlike(vs[1..], ws[1..]);
    }
  }

  lemma {:induction false} FieldsRedactAlike(fs: seq<Field>, gs: seq<Field>, nested: bool)
    requires FieldsMaskable(fs, nested) && FieldsAlike(fs, gs)
    ensures RedactedFields(fs, nested) == RedactedFields(gs, nested)
    decreases fs
  {
    if fs != [] {
      FieldRedactAlike(fs[0], gs[0], nested);
      FieldsRedactAlike(fs[1..], gs[1..], nested);
    }
  }

  lemma {:induction false} FieldRedactAlike(f: Field, g: Field, nested: bool)
    requires FieldMaskable(f, nested) && FieldAlike(f, g)
    ensures RedactedField(f, nested) == RedactedField(g, nested)
    decreases f
  {
    match f
    case Entry(key, value) => AlikeRedactsAlike(value, g.value);
    case Flatten(flat) => FlatRedactAlike(flat, g.flat, nested);
  }

  lemma {:induction false} FlatRedactAlike(f: Flat, g: Flat, nested: bool)
    requires FlatMaskable(f, nested) && FlatAlike(f, g)
    ensures RedactedFlat(f, nested) == RedactedFlat(g, nested)
    decreases f
  {
    match f
    case Absent =>
    case Wrapped(inner) => FlatRedactAlike(inner, g.inner, nested);
    case FlatFields(fields) => FieldsRedactAlike(fields, g.fields, true);
    case FlatVariant(name, value) => AlikeRedactsAlike(value, g.value);
    case FlatStructVariant(name, members) => MembersAlikeAreEqual(members, g.members);
    case FlatTupleVariant(name, elements) => AllAlikeAreEqual(elements, g.elements);
    case FlatSecret(inner, mask) =>
  }

  /** The masked JSON of a maskable value depends on its secrets only through their masks. */
  lemma MaskedDependsOnMasksOnly(v: Value, w: Value)
    requires Maskable(v) && Alike(v, w)
    ensures Masked(v) == Masked(w)
  {
    MaskedIsPlainOfRedacted(v);
    MaskedIsPlainOfRedacted(w);
    AlikeRedactsAlike(v, w);
  }

  /** A secret flattened into a masked object contributes no fields, wherever it stands and whatever it holds. */
  lemma FlattenedSecretAddsNothing(before: seq<Field>, inner: Flat, mask: string, after: seq<Field>)
    ensures Masked(Fields(before + [Flatten(FlatSecret(inner, mask))] + after)) == Masked(Fields(before + after))
  {
    var secret := Flatten(FlatSecret(inner, mask));
    assert before + [secret] + after == before + ([secret] + after);
    InsertConcat(before, [secret] + after, false, map[]);
    InsertConcat(before, after, false, map[]);
    if Insert(before, false, map[]).Ok? {
      var members := Insert(before, false, map[]).value;
      InsertConcat([secret], after, false, members);
      InsertSingle(secret, false, members);
      assert InsertOne(secret, false, members) == InsertFlat(secret.flat, false, members) == Ok(members);
    }
  }

  lemma {:induction false} InsertConcat(a: seq<Field>, b: seq<Field>, nested: bool, members: map<string, Json>)
    ensures Insert(a + b, nested, members) ==
      match Insert(a, nested, members) case Err(e) => Err(e) case Ok(more) => Insert(b, nested, more)
    decreases |a|
  {
    if a == [] {
      assert a + b == b;
    } else {
      assert (a + b)[1..] == a[1..] + b;
      if InsertOne(a[0], nested, members).Ok? {
        InsertConcat(a[1..], b, nested, InsertOne(a[0], nested, members).value);
      }
    }
  }

  lemma {:induction false} InsertSingle(field: Field, nested: bool, members: map<string, Json>)
    ensures Insert([field], nested, members) == InsertOne(field, nested, members)
  {
    assert [field][1..] == [];
  }

  /** The exceptions are real: such a secret's content shows in the masked JSON. */
  lemma SecretKeyShows(text: string, mask: string, value: Value)
    requires Masked(value).Ok?
    ensures Masked(Fields([Entry(SecretKey(Plainly(Some(text)), mask), value)])) ==
            Ok(Object(map[text := Masked(value).value]))
  {
    var key := SecretKey(Plainly(Some(text)), mask);
    assert KeyText(key) == KeyText(key.inner) == Ok(text);
    InsertSingle(Entry(key, value), false, map[]);
    assert InsertOne(Entry(key, value), false, map[]) == Ok(map[text := Masked(value).value]);
  }

  lemma NestedFlattenedSecretShows(inner: seq<Field>, mask: string)
    ensures Masked(Fields([Flatten(FlatFields([Flatten(FlatSecret(FlatFields(inner), mask))]))])) ==
            (match Insert(inner, true, map[]) case Err(e) => Err(e) case Ok(members) => Ok(Object(members)))
  {
    var secret := FlatSecret(FlatFields(inner), mask);
    var mid := FlatFields([Flatten(secret)]);
    assert InsertFlat(secret, true, map[]) == InsertFlat(secret.inner, true, map[]) == Insert(inner, true, map[]);
    InsertSingle(Flatten(secret), true, map[]);
    assert InsertFlat(mid, false, map[]) == Insert([Flatten(secret)], true, map[]);
    InsertSingle(Flatten(mid), false, map[]);
  }

  /** A flattened struct variant shows its fields as plain JSON does, secrets included. */
  lemma FlattenedStructVariantShows(name: string, members: seq<Member>)
    ensures Masked(Fields([Flatten(FlatStructVariant(name, members))])) ==
            AsObject(Single(name, AsObject(PlainMembers(members)))) ==
            Plain(Fields([Flatten(FlatStructVariant(name, members))]))
  {
    VariantShows(FlatStructVariant(name, members));
  }

  lemma FlattenedTupleVariantShows(name: string, elements: seq<Value>)
    ensures Masked(Fields([Flatten(FlatTupleVariant(name, elements))])) ==
            AsObject(Single(name, AsArray(PlainAll(elements)))) ==
            Plain(Fields([Flatten(FlatTupleVariant(name, elements))]))
  {
    VariantShows(FlatTupleVariant(name, elements));
  }

  lemma VariantShows(flat: Flat)
    requires RedactedFlat(flat, false) == flat
    ensures Masked(Fields([Flatten(flat)])) == AsObject(PlainFlat(flat)) == Plain(Fields([Flatten(flat)]))
  {
    var fields := [Flatten(flat)];
    MaskedIsPlainOfRedacted(Fields(fields));
    PlainSingle(fields[0]);
    assert fields[1..] == [];
    assert RedactedFields(fields, false) == [RedactedField(fields[0], false)] + RedactedFields([], false) == fields;
  }

  lemma {:induction false} PlainSingle(field: Field)
    ensures PlainFields([field]) == PlainField(field)
  {
    assert [field][1..] == [];
    assert PlainFields([]) == Ok(map[]);
    if PlainField(field).Ok? {
      assert PlainField(field).value + map[] == PlainField(field).value;
    }
  }
}
