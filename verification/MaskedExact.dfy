/**
  The converse of masking: in a value that is not maskable some secret decides what is serialized.
  Each such value has a twin, different only in what one exposed secret holds, that fails to serialize.
 */
module MaskedExact {
  import opened Common
  import opened SerdeModel
  import opened MaskedSerializer

  // ---- A value is alike to itself --------------------------------------------------------------

  lemma {:induction false} Same(v: Value)
    ensures Alike(v, v)
    decreases v
  {
    match v
    case Newtype(inner) => Same(inner);
    case NewtypeVariant(name, inner) => Same(inner);
    case Sequence(elements) => AllSame(elements);
    case TupleVariant(name, elements) => AllSame(elements);
    case Fields(fields) => FieldsSame(fields);
    case StructVariant(name, fields) => FieldsSame(fields);
    case _ =>
  }

  lemma {:induction false} AllSame(vs: seq<Value>)
    ensures AllAlike(vs, vs)
    decreases vs
  {
    if vs != [] {
      Same(vs[0]);
      AllSame(vs[1..]);
    }
  }

  lemma {:induction false} FieldsSame(fs: seq<Field>)
    ensures FieldsAlike(fs, fs)
    decreases fs
  {
    if fs != [] {
      FieldSame(fs[0]);
      FieldsSame(fs[1..]);
    }
  }

  lemma {:induction false} FieldSame(f: Field)
    ensures FieldAlike(f, f)
    decreases f
  {
    match f
    case Entry(key, value) => Same(value);
    case Flatten(flat) => FlatSame(flat);
  }

  lemma {:induction false} FlatSame(f: Flat)
    ensures FlatAlike(f, f)
    decreases f
  {
    match f
    case Wrapped(inner) => FlatSame(inner);
    case FlatFields(fields) => FieldsSame(fields);
    case FlatVariant(name, value) => Same(value);
    case FlatStructVariant(name, members) => MembersSame(members);
    case FlatTupleVariant(name, elements) => AllSame(elements);
    case _ =>
  }

  lemma {:induction false} MembersSame(ms: seq<Member>)
    ensures MembersAlike(ms, ms)
    decreases ms
  {
    if ms != [] {
      Same(ms[0].value);
      MembersSame(ms[1..]);
    }
  }

  // ---- Plain JSON shows every secret -----------------------------------------------------------

  function BadFields(): seq<Field> {
    [Entry(Plainly(None), Unit)]
  }

  lemma BadFieldsFail(nested: bool)
    ensures PlainFields(BadFields()).Err? && RedactedFields(BadFields(), nested) == BadFields()
  {
    assert BadFields()[1..] == [];
  }

  lemma {:induction false} Expose(v: Value) returns (w: Value)
    requires !SecretFree(v)
    ensures Alike(v, w) && Plain(w).Err?
    decreases v
  {
    match v
    case Newtype(inner) => var x := Expose(inner); w := Newtype(x);
    case NewtypeVariant(name, inner) => var x := Expose(inner); w := NewtypeVariant(name, x);
    case Sequence(elements) => var xs := ExposeAll(elements); w := Sequence(xs);
    case TupleVariant(name, elements) => var xs := ExposeAll(elements); w := TupleVariant(name, xs);
    case Fields(fields) => var xs := ExposeFields(fields); w := Fields(xs);
    case StructVariant(name, fields) => var xs := ExposeFields(fields); w := StructVariant(name, xs);
    case Secret(inner, mask) =>
      BadFieldsFail(false);
      w := Secret(Fields(BadFields()), mask);
  }

  lemma {:induction false} ExposeAll(vs: seq<Value>) returns (ws: seq<Value>)
    requires !AllSecretFree(vs)
    ensures AllAlike(vs, ws) && PlainAll(ws).Err?
    decreases vs
  {
    if !SecretFree(vs[0]) {
      var w := Expose(vs[0]);
      AllSame(vs[1..]);
      ws := [w] + vs[1..];
    } else {
      Same(vs[0]);
      var rest := ExposeAll(vs[1..]);
      ws := [vs[0]] + rest;
      assert ws[1..] == rest;
    }
  }

  lemma {:induction false} ExposeFields(fs: seq<Field>) returns (gs: seq<Field>)
    requires !FieldsSecretFree(fs)
    ensures FieldsAlike(fs, gs) && PlainFields(gs).Err?
    decreases fs
  {
    if !FieldSecretFree(fs[0]) {
      var g := ExposeField(fs[0]);
      FieldsSame(fs[1..]);
      gs := [g] + fs[1..];
    } else {
      FieldSame(fs[0]);
      var rest := ExposeFields(fs[1..]);
      gs := [fs[0]] + rest;
      assert gs[1..] == rest;
    }
  }

  lemma {:induction false} ExposeMembers(ms: seq<Member>) returns (ns: seq<Member>)
    requires !MembersSecretFree(ms)
    ensures MembersAlike(ms, ns) && PlainMembers(ns).Err?
    decreases ms
  {
    if !SecretFree(ms[0].value) {
      var w := Expose(ms[0].value);
      MembersSame(ms[1..]);
      ns := [Member(ms[0].name, w)] + ms[1..];
    } else {
      Same(ms[0].value);
      var rest := ExposeMembers(ms[1..]);
      ns := [ms[0]] + rest;
      assert ns[1..] == rest;
    }
  }

  lemma {:induction false} ExposeField(f: Field) returns (g: Field)
    requires !FieldSecretFree(f)
    ensures FieldAlike(f, g) && PlainField(g).Err?
    decreases f
  {
    match f
    case Entry(key, value) =>
      if key.SecretKey? {
        g := BadKey(key, value);
      } else {
        var w := Expose(value);
        g := Entry(key, w);
      }
    case Flatten(flat) =>
      var x := ExposeFlat(flat);
      g := Flatten(x);
  }

  lemma BadKey(key: Key, value: Value) returns (g: Field)
    requires key.SecretKey?
    ensures FieldAlike(Entry(key, value), g) && g.Entry? && KeyText(g.key).Err?
  {
    Same(value);
    g := Entry(SecretKey(Plainly(None), key.mask), value);
    assert KeyText(g.key) == KeyText(Plainly(None));
  }

  lemma {:induction false} ExposeFlat(f: Flat) returns (g: Flat)
    requires !FlatSecretFree(f)
    ensures FlatAlike(f, g) && PlainFlat(g).Err?
    decreases f
  {
    match f
    case Wrapped(inner) => var x := ExposeFlat(inner); g := Wrapped(x);
    case FlatFields(fields) => var xs := ExposeFields(fields); g := FlatFields(xs);
    case FlatVariant(name, value) => var x := Expose(value); g := FlatVariant(name, x);
    case FlatStructVariant(name, members) => var xs := ExposeMembers(members); g := FlatStructVariant(name, xs);
    case FlatTupleVariant(name, elements) => var xs := ExposeAll(elements); g := FlatTupleVariant(name, xs);
    case FlatSecret(inner, mask) => g := BadSecret(mask, false);
  }

  lemma BadSecret(mask: string, nested: bool) returns (g: Flat)
    ensures g.FlatSecret? && g.mask == mask && PlainFlat(g).Err?
    ensures PlainFlat(RedactedFlat(g.inner, nested)).Err?
  {
    BadFieldsFail(false);
    BadFieldsFail(true);
    g := FlatSecret(FlatFields(BadFields()), mask);
    assert PlainFlat(g) == PlainFlat(g.inner) == PlainFields(BadFields());
  }

  // ---- Masked JSON shows every secret it does not recognise -------------------------------------

  lemma {:induction false} Unmask(v: Value) returns (w: Value)
    requires !Maskable(v)
    ensures Alike(v, w) && Plain(Redacted(w)).Err?
    decreases v
  {
    match v
    case Newtype(inner) => var x := Unmask(inner); w := Newtype(x);
    case NewtypeVariant(name, inner) => var x := Unmask(inner); w := NewtypeVariant(name, x);
    case Sequence(elements) => var xs := UnmaskAll(elements); w := Sequence(xs);
    case TupleVariant(name, elements) => var xs := UnmaskAll(elements); w := TupleVariant(name, xs);
    case Fields(fields) => var xs := UnmaskFields(fields, false); w := Fields(xs);
    case StructVariant(name, fields) => var xs := UnmaskFields(fields, false); w := StructVariant(name, xs);
  }

  lemma {:induction false} UnmaskAll(vs: seq<Value>) returns (ws: seq<Value>)
    requires !AllMaskable(vs)
    ensures AllAlike(vs, ws) && PlainAll(RedactedAll(ws)).Err?
    decreases vs
  {
    if !Maskable(vs[0]) {
      var w := Unmask(vs[0]);
      AllSame(vs[1..]);
      ws := [w] + vs[1..];
    } else {
      Same(vs[0]);
      var rest := UnmaskAll(vs[1..]);
      ws := [vs[0]] + rest;
      assert ws[1..] == rest;
      assert RedactedAll(ws)[1..] == RedactedAll(rest);
    }
  }

  lemma {:induction false} UnmaskFields(fs: seq<Field>, nested: bool) returns (gs: seq<Field>)
    requires !FieldsMaskable(fs, nested)
    ensures FieldsAlike(fs, gs) && PlainFields(RedactedFields(gs, nested)).Err?
    decreases fs
  {
    if !FieldMaskable(fs[0], nested) {
      var g := UnmaskField(fs[0], nested);
      FieldsSame(fs[1..]);
      gs := [g] + fs[1..];
    } else {
      FieldSame(fs[0]);
      var rest := UnmaskFields(fs[1..], nested);
      gs := [fs[0]] + rest;
      assert gs[1..] == rest;
      assert RedactedFields(gs, nested)[1..] == RedactedFields(rest, nested);
    }
  }

  lemma {:induction false} UnmaskField(f: Field, nested: bool) returns (g: Field)
    requires !FieldMaskable(f, nested)
    ensures FieldAlike(f, g) && PlainField(RedactedField(g, nested)).Err?
    decreases f
  {
    match f
    case Entry(key, value) =>
      if key.SecretKey? {
        g := BadKey(key, value);
      } else {
        var w := Unmask(value);
        g := Entry(key, w);
      }
    case Flatten(flat) =>
      var x := UnmaskFlat(flat, nested);
      g := Flatten(x);
  }

  lemma {:induction false} UnmaskFlat(f: Flat, nested: bool) returns (g: Flat)
    requires !FlatMaskable(f, nested)
    ensures FlatAlike(f, g) && PlainFlat(RedactedFlat(g, nested)).Err?
    decreases f
  {
    match f
    case Wrapped(inner) => var x := UnmaskFlat(inner, nested); g := Wrapped(x);
    case FlatFields(fields) => var xs := UnmaskFields(fields, true); g := FlatFields(xs);
    case FlatVariant(name, value) => var x := Unmask(value); g := FlatVariant(name, x);
    case FlatStructVariant(name, members) => var xs := ExposeMembers(members); g := FlatStructVariant(name, xs);
    case FlatTupleVariant(name, elements) => var xs := ExposeAll(elements); g := FlatTupleVariant(name, xs);
    case FlatSecret(inner, mask) =>
      g := BadSecret(mask, nested);
      assert RedactedFlat(g, nested) == FlatSecret(RedactedFlat(g.inner, nested), mask);
  }

  /**
    The masked JSON of a value that serializes is the same for every value alike to it if and only if
    the value is maskable. The twin that tells the difference may hold a secret of another type.
   */
  lemma DependsOnMasksOnlyIffMaskable(v: Value)
    requires Masked(v).Ok?
    ensures (forall w :: Alike(v, w) ==> Masked(w) == Masked(v)) <==> Maskable(v)
  {
    if Maskable(v) {
      forall w | Alike(v, w) ensures Masked(w) == Masked(v) {
        MaskedDependsOnMasksOnly(v, w);
      }
    } else {
      var w := Unmask(v);
      MaskedIsPlainOfRedacted(w);
    }
  }
}
