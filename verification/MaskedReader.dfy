/** What masked JSON says: the members of an object by name, and all of a value but its secrets. */
module MaskedReader {
  import opened Common
  import opened SerdeModel
  import opened SerdeReader
  import opened MaskedSerializer

  ghost predicate AllNamed(fields: seq<Field>) {
    forall k :: 0 <= k < |fields| ==> IsNamed(fields[k])
  }

  /** The last field under its name. */
  ghost predicate LastUnder(fields: seq<Field>, k: nat, name: string) {
    && k < |fields| && IsNamed(fields[k]) && fields[k].key == Plainly(Some(name))
    && forall j :: k < j < |fields| ==> NameOf(fields[j]) != name
  }

  ghost predicate Mentions(fields: seq<Field>, name: string) {
    exists k :: 0 <= k < |fields| && fields[k].Entry? && fields[k].key == Plainly(Some(name))
  }

  lemma MentionsCons(fields: seq<Field>, name: string)
    requires fields != []
    ensures Mentions(fields, name) <==>
      (fields[0].Entry? && fields[0].key == Plainly(Some(name))) || Mentions(fields[1..], name)
  {
    if Mentions(fields, name) {
      var k :| 0 <= k < |fields| && fields[k].Entry? && fields[k].key == Plainly(Some(name));
      assert k > 0 ==> fields[1..][k - 1] == fields[k];
    }
    if Mentions(fields[1..], name) {
      var k :| 0 <= k < |fields[1..]| && fields[1..][k].Entry? && fields[1..][k].key == Plainly(Some(name));
      assert fields[k + 1] == fields[1..][k];
    }
  }

  /** Inserting named fields adds exactly their names. */
  lemma {:induction false} InsertNames(fields: seq<Field>, nested: bool, members: map<string, Json>, name: string)
    requires AllNamed(fields) && Insert(fields, nested, members).Ok?
    ensures name in Insert(fields, nested, members).value <==> name in members || Mentions(fields, name)
    ensures !Mentions(fields, name) && name in members ==> Insert(fields, nested, members).value[name] == members[name]
    decreases |fields|
  {
    if fields != [] {
      var f := fields[0];
      assert InsertOne(f, nested, members) == Ok(members[f.key.text.value := Masked(f.value).value]);
      InsertNames(fields[1..], nested, members[f.key.text.value := Masked(f.value).value], name);
      MentionsCons(fields, name);
    }
  }

  /** The last field under a name decides. */
  lemma {:induction false} InsertLast(fields: seq<Field>, nested: bool, members: map<string, Json>, k: nat, name: string)
    requires AllNamed(fields) && Insert(fields, nested, members).Ok? && LastUnder(fields, k, name)
    ensures name in Insert(fields, nested, members).value && Masked(fields[k].value).Ok?
    ensures Insert(fields, nested, members).value[name] == Masked(fields[k].value).value
    decreases |fields|
  {
    var f, rest := fields[0], fields[1..];
    assert InsertOne(f, nested, members) == Ok(members[f.key.text.value := Masked(f.value).value]);
    var more := members[f.key.text.value := Masked(f.value).value];
    if k == 0 {
      assert !Mentions(rest, name) by {
        forall j | 0 <= j < |rest| ensures !(rest[j].Entry? && rest[j].key == Plainly(Some(name))) {
          assert rest[j] == fields[j + 1];
        }
      }
      InsertNames(rest, nested, more, name);
    } else {
      InsertLast(rest, nested, more, k - 1, name);
    }
  }

  /**
    A masked object of named fields has exactly their names, each with the masked JSON of the last field
    of that name.
   */
  lemma MembersByName(fields: seq<Field>, k: nat, name: string)
    requires AllNamed(fields) && Masked(Fields(fields)).Ok?
    ensures Masked(Fields(fields)).value.Object?
    ensures name in Masked(Fields(fields)).value.members <==> Mentions(fields, name)
    ensures LastUnder(fields, k, name) ==>
      && name in Masked(Fields(fields)).value.members && Masked(fields[k].value).Ok?
      && Masked(Fields(fields)).value.members[name] == Masked(fields[k].value).value
  {
    InsertNames(fields, false, map[], name);
    if LastUnder(fields, k, name) {
      InsertLast(fields, false, map[], k, name);
    }
  }

  /** A recognised secret shows its mask and nothing else. */
  lemma SecretShowsMask(inner: Value, mask: string)
    ensures Masked(Secret(inner, mask)) == Ok(Text(mask))
  {
  }

  /** Masked JSON says all of the redacted value: reading it back gives that value, secrets replaced by masks. */
  lemma MaskedReadsBack(v: Value)
    requires Bare(Exposed(Redacted(v)))
    ensures Masked(v).Ok? && Read(ShapeOf(Exposed(Redacted(v))), Masked(v).value) == Some(Exposed(Redacted(v)))
  {
    MaskedIsPlainOfRedacted(v);
    PlainReadsBack(Redacted(v));
  }

  /** Without secrets it says all of the value itself. */
  lemma SecretFreeReadsBack(v: Value)
    requires SecretFree(v) && Bare(Exposed(v))
    ensures Masked(v).Ok? && Read(ShapeOf(Exposed(v)), Masked(v).value) == Some(Exposed(v))
  {
    SecretFreeIsPlain(v);
    PlainReadsBack(v);
  }
}
