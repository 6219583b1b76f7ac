/** The retry table: a running sum over (count, frequency) pairs that refines a plain list lookup. */
module RetryTable {
  import opened Common

  const I32_MAX := 0x7fff_ffff

  predicate IsI32(x: int) {
    -I32_MAX - 1 <= x <= I32_MAX
  }

  datatype Pair = Pair(count: int, frequency: int)

  /** `zip` stops at the shorter list. */
  function Zip(count: seq<int>, frequency: seq<int>): seq<Pair> {
    if count == [] || frequency == [] then [] else [Pair(count[0], frequency[0])] + Zip(count[1..], frequency[1..])
  }

  function Total(pairs: seq<Pair>): int {
    if pairs == [] then 0 else pairs[0].count + Total(pairs[1..])
  }

  /** The delays, one per retry: each frequency as often as its count says. */
  function Expand(pairs: seq<Pair>): seq<int> {
    if pairs == [] then [] else Repeat(pairs[0].frequency, pairs[0].count) + Expand(pairs[1..])
  }

  function Repeat(x: int, times: int): seq<int> {
    if times <= 0 then [] else [x] + Repeat(x, times - 1)
  }

  function Lookup(delays: seq<int>, retry: int): Option<int> {
    if 1 <= retry <= |delays| then Some(delays[retry - 1]) else None
  }

  ghost predicate NonNegative(pairs: seq<Pair>) {
    forall k :: 0 <= k < |pairs| ==> 0 <= pairs[k].count
  }

  /** The running sum never leaves 32 bits before the loop returns. */
  predicate NoOverflow(retry: int, pairs: seq<Pair>, sum: int) {
    pairs != [] ==>
      && IsI32(sum + pairs[0].count)
      && (sum + pairs[0].count < retry ==> NoOverflow(retry, pairs[1..], sum + pairs[0].count))
  }

  /** The frequency of the first pair at which the running sum reaches the retry count. */
  function FirstReaching(retry: int, pairs: seq<Pair>, sum: int): Option<int> {
    if pairs == [] then None
    else if sum + pairs[0].count >= retry then Some(pairs[0].frequency)
    else FirstReaching(retry, pairs[1..], sum + pairs[0].count)
  }

  method GetDelay(retryCount: int, pairs: seq<Pair>) returns (delay: Option<int>)
    requires IsI32(retryCount)
    requires NoOverflow(retryCount, pairs, 0)
    ensures delay == if retryCount <= 0 then None else FirstReaching(retryCount, pairs, 0)
  {
    if retryCount <= 0 {
      return None;
    }
    var cumulativeCount := 0;
    var k := 0;
    assert pairs[0..] == pairs;
    while k < |pairs|
      invariant k <= |pairs|
      invariant FirstReaching(retryCount, pairs[k..], cumulativeCount) == FirstReaching(retryCount, pairs, 0)
      invariant NoOverflow(retryCount, pairs[k..], cumulativeCount)
    {
      assert pairs[k..][1..] == pairs[k + 1..];
      cumulativeCount := cumulativeCount + pairs[k].count;
      assert IsI32(cumulativeCount);
      if cumulativeCount >= retryCount {
        return Some(pairs[k].frequency);
      }
      k := k + 1;
    }
    delay := None;
  }

  lemma {:induction false} RepeatAt(x: int, times: int)
    ensures |Repeat(x, times)| == Max(times, 0)
    ensures forall k :: 0 <= k < |Repeat(x, times)| ==> Repeat(x, times)[k] == x
  {
    if times > 0 {
      RepeatAt(x, times - 1);
    }
  }

  lemma {:induction false} ExpandLength(pairs: seq<Pair>)
    requires NonNegative(pairs)
    ensures |Expand(pairs)| == Total(pairs) >= 0
  {
    if pairs != [] {
      RepeatAt(pairs[0].frequency, pairs[0].count);
      ExpandLength(pairs[1..]);
    }
  }

  /** No positive count comes after a negative one. */
  ghost predicate NeverRecovers(pairs: seq<Pair>) {
    forall i, j :: 0 <= i < j < |pairs| && pairs[i].count < 0 ==> pairs[j].count <= 0
  }

  /** The running sum cannot rise by more than the list is long. */
  lemma {:induction false} OutOfReach(retry: int, pairs: seq<Pair>, sum: int)
    requires sum + |Expand(pairs)| < retry
    ensures FirstReaching(retry, pairs, sum) == None
  {
    if pairs != [] {
      RepeatAt(pairs[0].frequency, pairs[0].count);
      OutOfReach(retry, pairs[1..], sum + pairs[0].count);
    }
  }

  lemma {:induction false} NothingLeft(pairs: seq<Pair>)
    requires forall k :: 0 <= k < |pairs| ==> pairs[k].count <= 0
    ensures Expand(pairs) == []
  {
    if pairs != [] {
      NothingLeft(pairs[1..]);
    }
  }

  lemma {:induction false} FirstReachingIsLookup(retry: int, pairs: seq<Pair>, sum: int)
    requires NeverRecovers(pairs) && sum < retry
    ensures FirstReaching(retry, pairs, sum) == Lookup(Expand(pairs), retry - sum)
  {
    if pairs != [] {
      RepeatAt(pairs[0].frequency, pairs[0].count);
      if pairs[0].count < 0 {
        NothingLeft(pairs[1..]);
        OutOfReach(retry, pairs[1..], sum + pairs[0].count);
      } else if sum + pairs[0].count < retry {
        FirstReachingIsLookup(retry, pairs[1..], sum + pairs[0].count);
      }
    }
  }

  lemma {:induction false} ExpandHasRoom(pairs: seq<Pair>, j: nat)
    requires j < |pairs| && pairs[j].count > 0
    ensures |Expand(pairs)| > 0
  {
    RepeatAt(pairs[0].frequency, pairs[0].count);
    if j > 0 {
      ExpandHasRoom(pairs[1..], j - 1);
    }
  }

  /** A negative count before a positive one keeps the sum short of the list's last entry. */
  lemma {:induction false} LastNotReached(retry: int, pairs: seq<Pair>, sum: int, i: nat, j: nat)
    requires i < j < |pairs| && pairs[i].count < 0 < pairs[j].count
    requires sum + |Expand(pairs)| <= retry
    ensures FirstReaching(retry, pairs, sum) == None
  {
    RepeatAt(pairs[0].frequency, pairs[0].count);
    ExpandHasRoom(pairs[1..], j - 1);
    if pairs[0].count < 0 {
      OutOfReach(retry, pairs[1..], sum + pairs[0].count);
    } else {
      LastNotReached(retry, pairs[1..], sum + pairs[0].count, i - 1, j - 1);
    }
  }

  /**
    If every entry of the list can be asked for, as it can when the list has at most 2^31 - 1 entries:
    the loop is a look-up in the list, for every retry count, if and only if no positive count follows
    a negative one.
   */
  lemma LookupIffNeverRecovers(pairs: seq<Pair>, largest: int)
    requires |Expand(pairs)| <= largest
    ensures (forall r :: 0 < r <= largest ==> FirstReaching(r, pairs, 0) == Lookup(Expand(pairs), r)) <==> NeverRecovers(pairs)
  {
    if NeverRecovers(pairs) {
      forall r | 0 < r <= largest ensures FirstReaching(r, pairs, 0) == Lookup(Expand(pairs), r) {
        FirstReachingIsLookup(r, pairs, 0);
      }
    } else {
      var i, j :| 0 <= i < j < |pairs| && pairs[i].count < 0 < pairs[j].count;
      var r := |Expand(pairs)|;
      ExpandHasRoom(pairs, j);
      LastNotReached(r, pairs, 0, i, j);
      assert Lookup(Expand(pairs), r).Some?;
    }
  }

  /** A longer list can hide the difference: it lies beyond the largest retry count. */
  lemma LongListHidesTheDifference(largest: nat, a: int, b: int)
    requires largest > 0
    ensures var pairs := [Pair(-1, a), Pair(largest, b), Pair(1, b)];
      && !NeverRecovers(pairs)
      && (forall r :: 0 < r <= largest ==> FirstReaching(r, pairs, 0) == Lookup(Expand(pairs), r))
  {
    var x, y, z := Pair(-1, a), Pair(largest, b), Pair(1, b);
    var pairs := [x, y, z];
    assert pairs[0].count < 0 < pairs[1].count;
    assert pairs[1..] == [y, z] && [y, z][1..] == [z] && [z][1..] == [];
    RepeatAt(b, largest);
    RepeatAt(b, 1);
    assert Expand([]) == [];
    assert Expand([z]) == Repeat(b, 1) + Expand([]);
    assert Expand([y, z]) == Repeat(b, largest) + Expand([z]);
    assert Expand(pairs) == [] + Expand([y, z]) == Expand([y, z]);
    forall r | 0 < r <= largest ensures FirstReaching(r, pairs, 0) == Lookup(Expand(pairs), r) {
      assert FirstReaching(r, [z], largest - 1) == Some(b);
      assert FirstReaching(r, [y, z], -1) == Some(b);
      assert FirstReaching(r, pairs, 0) == FirstReaching(r, [y, z], -1);
    }
  }

  lemma {:induction false} SmallTotalNeverOverflows(retry: int, pairs: seq<Pair>, sum: int)
    requires NonNegative(pairs) && 0 <= sum && sum + Total(pairs) <= I32_MAX
    ensures NoOverflow(retry, pairs, sum)
  {
    if pairs != [] {
      ExpandLength(pairs[1..]);
      SmallTotalNeverOverflows(retry, pairs[1..], sum + pairs[0].count);
    }
  }

  /** An instance: after a negative count the running sum lags behind the list. */
  lemma NegativeCountBreaksLookup()
    ensures var pairs := [Pair(2, 300), Pair(-1, 600), Pair(1, 1800)];
      FirstReaching(3, pairs, 0) == None && Lookup(Expand(pairs), 3) == Some(1800)
  {
    var a, b, c := Pair(2, 300), Pair(-1, 600), Pair(1, 1800);
    assert [a, b, c][1..] == [b, c] && [b, c][1..] == [c];
    assert Expand([c]) == [1800] by {
      assert Repeat(1800, 1) == [1800];
    }
    assert Expand([b, c]) == [1800];
    assert Repeat(300, 2) == [300, 300] by {
      assert Repeat(300, 1) == [300];
    }
  }

  // ---- The table as configured -----------------------------------------------------------------

  datatype RetryMapping = RetryMapping(startAfter: int, frequency: seq<int>, count: seq<int>)

  datatype PTMapping = PTMapping(defaultMapping: RetryMapping, custom: map<string, RetryMapping>)

  /** Counts stand with counts and frequencies with frequencies, as far as both lists reach. */
  lemma {:induction false} ZipPairs(count: seq<int>, frequency: seq<int>)
    ensures |Zip(count, frequency)| == Rows(count, frequency)
    ensures forall i :: 0 <= i < Rows(count, frequency) ==> Zip(count, frequency)[i] == Pair(count[i], frequency[i])
  {
    if count != [] && frequency != [] {
      ZipPairs(count[1..], frequency[1..]);
    }
  }

  function Rows(count: seq<int>, frequency: seq<int>): (n: nat)
    ensures n <= |count| && n <= |frequency| && (n == |count| || n == |frequency|)
  {
    if |count| < |frequency| then |count| else |frequency|
  }

  /** The sum of the first `i` counts. */
  function PrefixSum(count: seq<int>, i: nat): int
    requires i <= |count|
  {
    if i == 0 then 0 else PrefixSum(count, i - 1) + count[i - 1]
  }

  /** Row `i` is the first at which the counts add up to the retry count. */
  ghost predicate FirstRow(count: seq<int>, retry: int, i: nat) {
    i < |count| && retry <= PrefixSum(count, i + 1) && forall j :: 0 <= j <= i ==> PrefixSum(count, j) < retry
  }

  /** The answer of a table: the frequency of the first such row, or none if the counts never add up to it. */
  ghost predicate AnswerOf(m: RetryMapping, retry: int, delay: Option<int>) {
    match delay
    case Some(d) => exists i :: 0 <= i < Rows(m.count, m.frequency) && FirstRow(m.count, retry, i) && d == m.frequency[i]
    case None => forall i :: 0 <= i <= Rows(m.count, m.frequency) ==> PrefixSum(m.count, i) < retry
  }

  /** The first `k` counts, and all fewer, add up to less than the retry count. */
  ghost predicate Below(count: seq<int>, retry: int, k: nat) {
    k <= |count| && forall j :: 0 <= j <= k ==> PrefixSum(count, j) < retry
  }

  lemma AnswerHere(m: RetryMapping, retry: int, k: nat)
    requires k < Rows(m.count, m.frequency) && Below(m.count, retry, k) && PrefixSum(m.count, k + 1) >= retry
    ensures AnswerOf(m, retry, Some(m.frequency[k]))
  {
    assert FirstRow(m.count, retry, k);
  }

  lemma NoAnswer(m: RetryMapping, retry: int)
    requires Below(m.count, retry, Rows(m.count, m.frequency))
    ensures AnswerOf(m, retry, None)
  {
  }

  /** What the loop answers once it has passed `k` rows. */
  ghost function FromRow(m: RetryMapping, retry: int, k: nat): Option<int>
    requires k <= Rows(m.count, m.frequency) == |Zip(m.count, m.frequency)|
  {
    FirstReaching(retry, Zip(m.count, m.frequency)[k..], PrefixSum(m.count, k))
  }

  lemma RowStep(m: RetryMapping, retry: int, k: nat)
    requires k <= Rows(m.count, m.frequency) == |Zip(m.count, m.frequency)|
    ensures FromRow(m, retry, k) ==
      if k == Rows(m.count, m.frequency) then None
      else if PrefixSum(m.count, k + 1) >= retry then Some(m.frequency[k])
      else FromRow(m, retry, k + 1)
  {
    var pairs := Zip(m.count, m.frequency);
    if k < |pairs| {
      ZipPairs(m.count, m.frequency);
      assert pairs[k..][0] == Pair(m.count[k], m.frequency[k]) && pairs[k..][1..] == pairs[k + 1..];
    }
  }

  lemma BelowNext(count: seq<int>, retry: int, k: nat)
    requires k < |count| && Below(count, retry, k) && PrefixSum(count, k + 1) < retry
    ensures Below(count, retry, k + 1)
  {
  }

  lemma RowsAnswer(m: RetryMapping, retry: int)
    requires retry > 0 && Rows(m.count, m.frequency) == |Zip(m.count, m.frequency)|
    ensures AnswerOf(m, retry, FromRow(m, retry, 0))
  {
    var k := 0;
    while k < Rows(m.count, m.frequency) && PrefixSum(m.count, k + 1) < retry
      invariant k <= Rows(m.count, m.frequency) && Below(m.count, retry, k)
      invariant FromRow(m, retry, k) == FromRow(m, retry, 0)
    {
      RowStep(m, retry, k);
      BelowNext(m.count, retry, k);
      k := k + 1;
    }
    RowStep(m, retry, k);
    if k == Rows(m.count, m.frequency) {
      NoAnswer(m, retry);
    } else {
      AnswerHere(m, retry, k);
    }
  }

  lemma FirstReachingAnswers(m: RetryMapping, retry: int)
    requires retry > 0
    ensures AnswerOf(m, retry, FirstReaching(retry, Zip(m.count, m.frequency), 0))
  {
    ZipPairs(m.count, m.frequency);
    RowsAnswer(m, retry);
    assert Zip(m.count, m.frequency)[0..] == Zip(m.count, m.frequency);
  }

  lemma {:induction false} TotalFrom(count: seq<int>, frequency: seq<int>, k: nat)
    requires k <= Rows(count, frequency) == |Zip(count, frequency)|
    ensures PrefixSum(count, k) + Total(Zip(count, frequency)[k..]) == PrefixSum(count, Rows(count, frequency))
    decreases Rows(count, frequency) - k
  {
    if k < Rows(count, frequency) {
      ZipPairs(count, frequency);
      assert Zip(count, frequency)[k..][1..] == Zip(count, frequency)[k + 1..];
      TotalFrom(count, frequency, k + 1);
    }
  }

  lemma TotalIsSum(count: seq<int>, frequency: seq<int>)
    ensures Total(Zip(count, frequency)) == PrefixSum(count, Rows(count, frequency))
  {
    ZipPairs(count, frequency);
    TotalFrom(count, frequency, 0);
    assert Zip(count, frequency)[0..] == Zip(count, frequency);
  }

  function Select(mapping: PTMapping, merchant: string): RetryMapping {
    if merchant in mapping.custom then mapping.custom[merchant] else mapping.defaultMapping
  }

  /** The delays of all attempts under a mapping, the first one included. */
  function Schedule(m: RetryMapping): seq<int> {
    [m.startAfter] + Expand(Zip(m.count, m.frequency))
  }

  /** Every later entry of the schedule is the answer of the row its position falls into. */
  lemma ScheduleAnswers(m: RetryMapping)
    requires NeverRecovers(Zip(m.count, m.frequency))
    ensures forall r :: 0 < r < |Schedule(m)| ==> AnswerOf(m, r, Some(Schedule(m)[r]))
  {
    forall r | 0 < r < |Schedule(m)| ensures AnswerOf(m, r, Some(Schedule(m)[r])) {
      FirstReachingAnswers(m, r);
      FirstReachingIsLookup(r, Zip(m.count, m.frequency), 0);
    }
  }

  /** After row `k` the loop forms the sum of the first `i` counts: none in between reaches the retry count. */
  ghost predicate Formed(count: seq<int>, retry: int, k: nat, i: nat) {
    i <= |count| && forall j :: k < j < i ==> PrefixSum(count, j) < retry
  }

  lemma FormedLater(count: seq<int>, retry: int, k: nat, i: nat)
    requires k + 1 < i <= |count|
    ensures Formed(count, retry, k, i) <==> PrefixSum(count, k + 1) < retry && Formed(count, retry, k + 1, i)
  {
  }

  /** What the overflow condition asks of the configured lists: every sum the loop forms is a 32-bit number. */
  ghost predicate SumsFit(count: seq<int>, n: nat, retry: int, k: nat) {
    forall i :: k < i <= n && Formed(count, retry, k, i) ==> -0x8000_0000 <= PrefixSum(count, i) < 0x8000_0000
  }

  lemma SumsFitStep(count: seq<int>, n: nat, retry: int, k: nat)
    requires k < n <= |count|
    ensures SumsFit(count, n, retry, k) <==>
      && -0x8000_0000 <= PrefixSum(count, k + 1) < 0x8000_0000
      && (PrefixSum(count, k + 1) < retry ==> SumsFit(count, n, retry, k + 1))
  {
    assert Formed(count, retry, k, k + 1);
    forall i | k + 1 < i <= n
      ensures Formed(count, retry, k, i) <==> PrefixSum(count, k + 1) < retry && Formed(count, retry, k + 1, i)
    {
      FormedLater(count, retry, k, i);
    }
  }

  lemma {:induction false} NoOverflowIffSumsFit(count: seq<int>, frequency: seq<int>, retry: int, k: nat)
    requires k <= Rows(count, frequency) == |Zip(count, frequency)|
    ensures NoOverflow(retry, Zip(count, frequency)[k..], PrefixSum(count, k)) <==>
            SumsFit(count, Rows(count, frequency), retry, k)
    decreases Rows(count, frequency) - k
  {
    if k < Rows(count, frequency) {
      ZipPairs(count, frequency);
      assert Zip(count, frequency)[k..][1..] == Zip(count, frequency)[k + 1..];
      NoOverflowIffSumsFit(count, frequency, retry, k + 1);
      SumsFitStep(count, Rows(count, frequency), retry, k);
    }
  }

  /**
    The merchant's own mapping answers, or else the default one. Retry 0 is answered by any table and a
    negative one by none; any other by the first row at which the counts add up to it. If no positive
    count follows a negative one, the answer for retry `r` is the `r`-th entry of the schedule, and
    there is none beyond it.
   */
  method GetScheduleTime(mapping: PTMapping, merchant: string, retryCount: int) returns (delay: Option<int>)
    requires IsI32(retryCount)
    requires var m := Select(mapping, merchant); NoOverflow(retryCount, Zip(m.count, m.frequency), 0)
    ensures var m := if merchant in mapping.custom then mapping.custom[merchant] else mapping.defaultMapping;
      && (retryCount == 0 ==> delay == Some(m.startAfter))
      && (retryCount < 0 ==> delay == None)
      && (retryCount > 0 ==> AnswerOf(m, retryCount, delay))
      && (NeverRecovers(Zip(m.count, m.frequency)) ==>
            && (delay.Some? <==> 0 <= retryCount < |Schedule(m)|)
            && (delay.Some? ==> delay.value == Schedule(m)[retryCount]))
  {
    var m := Select(mapping, merchant);
    var pairs := Zip(m.count, m.frequency);
    if retryCount == 0 {
      delay := Some(m.startAfter);
    } else {
      delay := GetDelay(retryCount, pairs);
    }
    if retryCount > 0 {
      FirstReachingAnswers(m, retryCount);
      if NeverRecovers(pairs) {
        FirstReachingIsLookup(retryCount, pairs, 0);
      }
    }
  }

  ghost predicate NeverOverflows(pairs: seq<Pair>) {
    forall r :: NoOverflow(r, pairs, 0)
  }

  /** Asking for one retry after the other goes through the schedule, entry by entry. */
  method RetryUntilNone(mapping: PTMapping, merchant: string) returns (delays: seq<int>)
    requires var m := Select(mapping, merchant); var pairs := Zip(m.count, m.frequency);
      NeverOverflows(pairs) && NeverRecovers(pairs) && |Schedule(m)| <= I32_MAX
    ensures delays == Schedule(Select(mapping, merchant))
  {
    delays := [];
    var retryCount := 0;
    ghost var schedule := Schedule(Select(mapping, merchant));
    var delay := GetScheduleTime(mapping, merchant, retryCount);
    while delay.Some?
      invariant 0 <= retryCount <= |schedule|
      invariant delays == schedule[..retryCount]
      invariant delay.Some? <==> retryCount < |schedule|
      invariant delay.Some? ==> delay.value == schedule[retryCount]
      decreases |schedule| - retryCount
    {
      delays := delays + [delay.value];
      retryCount := retryCount + 1;
      delay := GetScheduleTime(mapping, merchant, retryCount);
    }
  }

  lemma SaneTable(m: RetryMapping)
    requires forall i :: 0 <= i < Rows(m.count, m.frequency) ==> 0 <= m.count[i]
    requires PrefixSum(m.count, Rows(m.count, m.frequency)) <= I32_MAX
    ensures var pairs := Zip(m.count, m.frequency); NeverOverflows(pairs) && NeverRecovers(pairs)
    ensures |Schedule(m)| == 1 + PrefixSum(m.count, Rows(m.count, m.frequency))
  {
    var pairs := Zip(m.count, m.frequency);
    ZipPairs(m.count, m.frequency);
    TotalIsSum(m.count, m.frequency);
    ExpandLength(pairs);
    forall r ensures NoOverflow(r, pairs, 0) {
      SmallTotalNeverOverflows(r, pairs, 0);
    }
  }

  /**
    A task retried until the table has no answer is attempted once more than the counts add up to: first
    after `startAfter`, then each time after the frequency of the row its retry count falls into.
   */
  method RetryUntilExhausted(mapping: PTMapping, merchant: string) returns (delays: seq<int>)
    requires var m := if merchant in mapping.custom then mapping.custom[merchant] else mapping.defaultMapping;
      && (forall i :: 0 <= i < Rows(m.count, m.frequency) ==> 0 <= m.count[i])
      && PrefixSum(m.count, Rows(m.count, m.frequency)) < 0x7fff_ffff
    ensures var m := if merchant in mapping.custom then mapping.custom[merchant] else mapping.defaultMapping;
      && delays == Schedule(m)
      && |delays| == 1 + PrefixSum(m.count, Rows(m.count, m.frequency))
      && delays[0] == m.startAfter
      && forall r :: 0 < r < |delays| ==> AnswerOf(m, r, Some(delays[r]))
  {
    SaneTable(Select(mapping, merchant));
    ScheduleAnswers(Select(mapping, merchant));
    delays := RetryUntilNone(mapping, merchant);
  }
}
