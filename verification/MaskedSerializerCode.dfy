/**
  The serializer's accumulators, filled in place, and the traversal that drives them.
 */
module MaskedSerializerCode {
  import opened Common
  import opened SerdeModel
  import opened SerdeReader
  import opened MaskedSerializer
  import opened MaskedReader

  class SerializeVec {
    var vec: seq<Json>

    constructor ()
      ensures vec == []
    {
      vec := [];
    }

    /** Nothing is pushed when the element fails. */
    method SerializeElement(value: Value) returns (r: Result<(), SerError>)
      modifies this
      ensures match Masked(value)
              case Err(e) => r == Err(e) && vec == old(vec)
              case Ok(json) => r.Ok? && vec == old(vec) + [json]
      decreases value, 1
    {
      var json := MaskedValue(value);
      if json.Err? {
        return Err(json.error);
      }
      vec := vec + [json.value];
      r := Ok(());
    }

    /** A sequence's or tuple's elements in turn, stopping at the first that fails. */
    method SerializeElements(values: seq<Value>) returns (r: Result<(), SerError>)
      modifies this
      ensures Push(values, old(vec)) == if r.Err? then Err(r.error) else Ok(vec)
      decreases values, 0
    {
      var i := 0;
      assert values[0..] == values;
      while i < |values|
        invariant i <= |values| && Push(values, old(vec)) == Push(values[i..], vec)
      {
        assert values[i..][0] == values[i] && values[i..][1..] == values[i + 1..];
        var pushed := SerializeElement(values[i]);
        if pushed.Err? {
          return pushed;
        }
        i := i + 1;
      }
      r := Ok(());
    }
  }

  /** The members so far, and the key that waits for its value. */
  class SerializeMap {
    var members: map<string, Json>
    var nextKey: Option<string>

    constructor ()
      ensures members == map[] && nextKey == None
    {
      members, nextKey := map[], None;
    }

    method SerializeKey(key: Key) returns (r: Result<(), SerError>)
      modifies this
      ensures members == old(members)
      ensures match KeyText(key)
              case Err(e) => r == Err(e) && nextKey == old(nextKey)
              case Ok(text) => r.Ok? && nextKey == Some(text)
    {
      var text := KeyText(key);
      if text.Err? {
        return Err(text.error);
      }
      nextKey := Some(text.value);
      r := Ok(());
    }

    method SerializeValue(value: Value) returns (r: Result<(), SerError>)
      requires nextKey.Some?
      modifies this
      ensures match Masked(value)
              case Err(e) => r == Err(e) && members == old(members)
              case Ok(json) => r.Ok? && nextKey == None && members == old(members)[old(nextKey).value := json]
      decreases value, 1
    {
      var json := MaskedValue(value);
      if json.Err? {
        return Err(json.error);
      }
      members, nextKey := members[nextKey.value := json.value], None;
      r := Ok(());
    }

    method SerializeField(field: Field, nested: bool) returns (r: Result<(), SerError>)
      modifies this
      ensures InsertOne(field, nested, old(members)) == if r.Err? then Err(r.error) else Ok(members)
      decreases field
    {
      match field
      case Flatten(flat) =>
        r := SerializeFlat(flat, nested);
      case Entry(key, value) =>
        r := SerializeKey(key);
        if r.Ok? {
          r := SerializeValue(value);
        }
    }

    /** The fields of an object in turn, stopping at the first that fails. */
    method SerializeFields(fields: seq<Field>, nested: bool) returns (r: Result<(), SerError>)
      modifies this
      ensures Insert(fields, nested, old(members)) == if r.Err? then Err(r.error) else Ok(members)
      decreases fields, 0
    {
      var i := 0;
      assert fields[0..] == fields;
      while i < |fields|
        invariant i <= |fields| && Insert(fields, nested, old(members)) == Insert(fields[i..], nested, members)
      {
        assert fields[i..][0] == fields[i] && fields[i..][1..] == fields[i + 1..];
        r := SerializeField(fields[i], nested);
        if r.Err? {
          return;
        }
        i := i + 1;
      }
      r := Ok(());
    }

    /** The contents of a flattened struct or tuple variant, already serialized into a buffer that knows no masking. */
    method SerializeBuffered(name: string, buffered: Result<Json, SerError>) returns (r: Result<(), SerError>)
      modifies this
      ensures match buffered
              case Err(e) => r == Err(e) && members == old(members)
              case Ok(json) => r.Ok? && members == old(members)[name := json]
    {
      if buffered.Err? {
        return Err(buffered.error);
      }
      members := members[name := buffered.value];
      r := Ok(());
    }

    /**
      A value flattened into this object. A secret finds its serializer by type: directly under a
      masked object it writes an empty map, one level deeper it no longer matches and exposes itself.
     */
    method SerializeFlat(flat: Flat, nested: bool) returns (r: Result<(), SerError>)
      modifies this
      ensures InsertFlat(flat, nested, old(members)) == if r.Err? then Err(r.error) else Ok(members)
      decreases flat
    {
      match flat
      case Absent =>
        r := Ok(());
      case Wrapped(inner) =>
        r := SerializeFlat(inner, nested);
      case FlatFields(fields) =>
        r := SerializeFields(fields, true);
      case FlatVariant(name, value) =>
        nextKey := Some(name);
        r := SerializeValue(value);
      case FlatStructVariant(name, inner) =>
        r := SerializeBuffered(name, AsObject(PlainMembers(inner)));
      case FlatTupleVariant(name, elements) =>
        r := SerializeBuffered(name, AsArray(PlainAll(elements)));
      case FlatSecret(inner, mask) =>
        if nested {
          r := SerializeFlat(inner, nested);
        } else {
          r := Ok(());
        }
    }
  }

  /**
    The masked JSON is the plain JSON of the value with its secrets redacted, errors included; and a
    reader recovers the redacted value from it.
   */
  method MaskedSerialize(value: Value) returns (r: Result<Json, SerError>)
    ensures r == Masked(value) == Plain(Redacted(value))
    ensures Bare(Exposed(Redacted(value))) ==>
      r.Ok? && Read(ShapeOf(Exposed(Redacted(value))), r.value) == Some(Exposed(Redacted(value)))
    decreases value, 1
  {
    MaskedIsPlainOfRedacted(value);
    if Bare(Exposed(Redacted(value))) {
      MaskedReadsBack(value);
    }
    r := MaskedValue(value);
  }

  method MaskedValue(value: Value) returns (r: Result<Json, SerError>)
    ensures r == Masked(value)
    decreases value, 0
  {
    match value
    case Newtype(inner) =>
      r := MaskedValue(inner);
    case NewtypeVariant(name, inner) =>
      r := MaskedValue(inner);
      if r.Ok? {
        r := Ok(Object(map[name := r.value]));
      }
    case Sequence(elements) =>
      r := MaskedArray(elements);
    case TupleVariant(name, elements) =>
      r := MaskedArray(elements);
      if r.Ok? {
        r := Ok(Object(map[name := r.value]));
      }
    case Fields(fields) =>
      r := MaskedObject(fields);
    case StructVariant(name, fields) =>
      r := MaskedObject(fields);
      if r.Ok? {
        r := Ok(Object(map[name := r.value]));
      }
    case Secret(inner, mask) =>
      r := Ok(Text(mask));
    case Bool(b) => r := Ok(Boolean(b));
    case Int(n) => r := Ok(Integer(n));
    case Float(text) => r := Ok(if text.None? then Null else Decimal(text.value));
    case Char(c) => r := Ok(Text([c]));
    case Str(s) => r := Ok(Text(s));
    case Bytes(bytes) => r := Ok(Array(Numbers(bytes)));
    case Unit => r := Ok(Null);
    case UnitVariant(name) => r := Ok(Text(name));
  }

  method MaskedArray(elements: seq<Value>) returns (r: Result<Json, SerError>)
    ensures r == AsArray(Push(elements, []))
    decreases elements, 1
  {
    var acc := new SerializeVec();
    var done := acc.SerializeElements(elements);
    r := if done.Err? then Err(done.error) else Ok(Array(acc.vec));
  }

  method MaskedObject(fields: seq<Field>) returns (r: Result<Json, SerError>)
    ensures r == AsObject(Insert(fields, false, map[]))
    decreases fields, 1
  {
    var acc := new SerializeMap();
    var done := acc.SerializeFields(fields, false);
    r := if done.Err? then Err(done.error) else Ok(Object(acc.members));
  }
}
