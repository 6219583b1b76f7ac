/** The Redis keys of a shard, for any configured stream name. */
module StreamNames {

  function Digit(d: nat): char
    requires d < 10
  {
    '0' + d as char
  }

  /** The decimal form in which a shard index is formatted. */
  function Decimal(n: nat): (text: string)
    ensures |text| >= 1
  {
    if n < 10 then [Digit(n)] else Decimal(n / 10) + [Digit(n % 10)]
  }

  function DrainerStream(name: string, shardKey: string): string {
    "{" + shardKey + "}_" + name
  }

  function StreamName(name: string, shard: nat): string {
    DrainerStream(name, "shard_" + Decimal(shard))
  }

  function FlagName(name: string, shard: nat): string {
    StreamName(name, shard) + "_in_use"
  }

  predicate IsDigit(c: char) {
    '0' <= c <= '9'
  }

  lemma {:induction false} DecimalIsDigits(n: nat, k: nat)
    requires k < |Decimal(n)|
    ensures IsDigit(Decimal(n)[k])
  {
    if n >= 10 && k < |Decimal(n / 10)| {
      DecimalIsDigits(n / 10, k);
    }
  }

  lemma {:induction false} DecimalInjective(m: nat, n: nat)
    requires Decimal(m) == Decimal(n)
    ensures m == n
  {
    var last := Decimal(m)[|Decimal(m)| - 1];
    assert last == Digit(m % 10) && last == Digit(n % 10);
    if m >= 10 && n >= 10 {
      assert Decimal(m)[..|Decimal(m)| - 1] == Decimal(m / 10);
      assert Decimal(n)[..|Decimal(n)| - 1] == Decimal(n / 10);
      DecimalInjective(m / 10, n / 10);
    }
  }

  /** A closing brace ends the digits, so what is before and after it can be read back. */
  lemma SplitAtBrace(a: string, x: string, b: string, y: string)
    requires forall k :: 0 <= k < |a| ==> IsDigit(a[k])
    requires forall k :: 0 <= k < |b| ==> IsDigit(b[k])
    requires a + "}" + x == b + "}" + y
    ensures a == b && x == y
  {
    var s := a + "}" + x;
    assert s[|a|] == '}' && s[|b|] == '}';
    assert forall k :: 0 <= k < |a| ==> s[k] == a[k];
    assert forall k :: 0 <= k < |b| ==> s[k] == b[k];
    assert |a| == |b|;
    assert s[..|a|] == a && s[..|b|] == b;
    assert s[|a| + 1..] == x && s[|b| + 1..] == y;
  }

  /** A key read from behind its constant head: digits, brace, rest. */
  function Tail(name: string, shard: nat, suffix: string): string {
    Decimal(shard) + "}" + ("_" + name + suffix)
  }

  lemma KeyTail(name: string, shard: nat, suffix: string)
    ensures |StreamName(name, shard) + suffix| >= 7
    ensures (StreamName(name, shard) + suffix)[7..] == Tail(name, shard, suffix)
  {
    assert StreamName(name, shard) + suffix == "{shard_" + Tail(name, shard, suffix);
  }

  lemma SameStreamName(name: string, i: nat, suffix: string, j: nat, suffix': string)
    requires StreamName(name, i) + suffix == StreamName(name, j) + suffix'
    ensures i == j && suffix == suffix'
  {
    KeyTail(name, i, suffix);
    KeyTail(name, j, suffix');
    forall k | 0 <= k < |Decimal(i)| ensures IsDigit(Decimal(i)[k]) { DecimalIsDigits(i, k); }
    forall k | 0 <= k < |Decimal(j)| ensures IsDigit(Decimal(j)[k]) { DecimalIsDigits(j, k); }
    SplitAtBrace(Decimal(i), "_" + name + suffix, Decimal(j), "_" + name + suffix');
    DecimalInjective(i, j);
    assert ("_" + name + suffix)[|"_" + name|..] == suffix;
    assert ("_" + name + suffix')[|"_" + name|..] == suffix';
  }

  /** All stream and flag names, over all shards, are pairwise distinct. */
  lemma KeysDistinct(name: string, i: nat, j: nat)
    ensures StreamName(name, i) == StreamName(name, j) ==> i == j
    ensures FlagName(name, i) == FlagName(name, j) ==> i == j
    ensures StreamName(name, i) != FlagName(name, j)
  {
    assert StreamName(name, i) + "" == StreamName(name, i);
    assert StreamName(name, j) + "" == StreamName(name, j);
    if StreamName(name, i) == StreamName(name, j) {
      SameStreamName(name, i, "", j, "");
    }
    if FlagName(name, i) == FlagName(name, j) {
      SameStreamName(name, i, "_in_use", j, "_in_use");
    }
    if StreamName(name, i) == FlagName(name, j) {
      SameStreamName(name, i, "", j, "_in_use");
    }
  }

  /** The number a decimal text stands for. */
  function Value(text: string): int {
    if text == "" then 0 else 10 * Value(text[..|text| - 1]) + (text[|text| - 1] as int - '0' as int)
  }

  /** The index can be read back from its decimal form, which has no leading zero. */
  lemma {:induction false} DecimalValue(n: nat)
    ensures Value(Decimal(n)) == n
    ensures n > 0 ==> Decimal(n)[0] != '0'
  {
    if n >= 10 {
      DecimalValue(n / 10);
      assert Decimal(n)[..|Decimal(n)| - 1] == Decimal(n / 10);
    } else {
      assert Decimal(n)[..0] == "" && Value("") == 0;
    }
  }

  /** The form the key builders document. */
  lemma KeysOfShardFive()
    ensures StreamName("drainer_stream", 5) == "{shard_5}_drainer_stream"
    ensures FlagName("drainer_stream", 5) == "{shard_5}_drainer_stream_in_use"
  {
    assert Decimal(5) == "5";
  }
}
