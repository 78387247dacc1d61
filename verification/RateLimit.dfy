/**
  The fixed-window limit on credential exchanges (apps/integrations/tokens.py throttle_exchange).
  Instants are milliseconds of one clock shared by the gateway and the counter store.
 */
module RateLimit {

  type Address = nat

  const LIMIT := 60
  const WINDOW := 60_000
  const KEEP := 120_000

  datatype Bucket = Bucket(address: Address, minute: int)

  /** A counter is gone from its deadline on. */
  datatype Counter = Counter(count: nat, deadline: int)

  type Counters = map<Bucket, Counter>

  datatype Exchange = Exchange(address: Address, at: nat)

  function BucketOf(e: Exchange): Bucket {
    Bucket(e.address, e.at / 1000 / 60)
  }

  /** `INCR`: an absent or expired counter starts again at one. */
  function CountAfter(counters: Counters, e: Exchange): nat {
    var bucket := BucketOf(e);
    if bucket in counters && e.at < counters[bucket].deadline then counters[bucket].count + 1 else 1
  }

  /** `INCR` and `EXPIRE` in one pipeline. */
  function Counted(counters: Counters, e: Exchange): Counters {
    counters[BucketOf(e) := Counter(CountAfter(counters, e), e.at + KEEP)]
  }

  predicate Passes(counters: Counters, e: Exchange) {
    CountAfter(counters, e) <= LIMIT
  }

  function Run(exchanges: seq<Exchange>): Counters {
    if exchanges == [] then map[] else Counted(Run(exchanges[..|exchanges| - 1]), exchanges[|exchanges| - 1])
  }

  /** The clock never goes back. */
  predicate InTime(exchanges: seq<Exchange>) {
    forall i, j | 0 <= i < j < |exchanges| :: exchanges[i].at <= exchanges[j].at
  }

  /** How many exchanges fell into a bucket. */
  function Hits(exchanges: seq<Exchange>, bucket: Bucket): nat {
    if exchanges == [] then 0
    else Hits(exchanges[..|exchanges| - 1], bucket) + (if BucketOf(exchanges[|exchanges| - 1]) == bucket then 1 else 0)
  }

  /** How many exchanges of an address between `from` and `until` passed. */
  function Passed(exchanges: seq<Exchange>, address: Address, from: int, until: int): nat {
    if exchanges == [] then 0
    else
      var front, last := exchanges[..|exchanges| - 1], exchanges[|exchanges| - 1];
      Passed(front, address, from, until)
      + (if last.address == address && from <= last.at < until && Passes(Run(front), last) then 1 else 0)
  }

  /** A counter that was touched counts its bucket's exchanges and outlives its minute. */
  predicate Exact(exchanges: seq<Exchange>, bucket: Bucket) {
    var counters := Run(exchanges);
    if bucket in counters then
      counters[bucket].count == Hits(exchanges, bucket) && (bucket.minute + 1) * WINDOW < counters[bucket].deadline
    else Hits(exchanges, bucket) == 0
  }

  lemma {:induction false} InTimeFront(exchanges: seq<Exchange>)
    requires exchanges != [] && InTime(exchanges)
    ensures InTime(exchanges[..|exchanges| - 1])
  {
  }

  /** A counter never resets within its own minute: it counts every exchange of its bucket. */
  lemma {:induction false} CountersAreExact(exchanges: seq<Exchange>, bucket: Bucket)
    requires InTime(exchanges)
    ensures Exact(exchanges, bucket)
  {
    if exchanges != [] {
      var front, last := exchanges[..|exchanges| - 1], exchanges[|exchanges| - 1];
      InTimeFront(exchanges);
      CountersAreExact(front, bucket);
      MinuteOf(last.at);
    }
  }

  lemma MinuteOf(at: nat)
    ensures at / 1000 / 60 * WINDOW <= at < (at / 1000 / 60 + 1) * WINDOW
  {
  }

  /** An exchange passes exactly when fewer than sixty came before it in its minute. */
  lemma {:induction false} PassesIffBelowTheLimit(exchanges: seq<Exchange>, e: Exchange)
    requires InTime(exchanges + [e])
    ensures Passes(Run(exchanges), e) <==> Hits(exchanges, Bucket(e.address, e.at / 60_000)) < 60
  {
    InTimeFront(exchanges + [e]);
    assert (exchanges + [e])[..|exchanges|] == exchanges;
    CountersAreExact(exchanges, BucketOf(e));
    MinuteOf(e.at);
  }

  function Min(a: int, b: int): int {
    if a <= b then a else b
  }

  /** Within one minute exactly the first sixty exchanges of an address pass. */
  lemma {:induction false} FirstSixtyPass(exchanges: seq<Exchange>, bucket: Bucket)
    requires InTime(exchanges)
    ensures Passed(exchanges, bucket.address, bucket.minute * 60_000, (bucket.minute + 1) * 60_000)
        == Min(Hits(exchanges, bucket), 60)
  {
    if exchanges != [] {
      var front, last := exchanges[..|exchanges| - 1], exchanges[|exchanges| - 1];
      assert front + [last] == exchanges;
      InTimeFront(exchanges);
      FirstSixtyPass(front, bucket);
      PassesIffBelowTheLimit(front, last);
      MinuteOf(last.at);
    }
  }

  lemma {:induction false} PassedSplits(exchanges: seq<Exchange>, address: Address, from: int, middle: int, until: int)
    requires from <= middle <= until
    ensures Passed(exchanges, address, from, until)
         == Passed(exchanges, address, from, middle) + Passed(exchanges, address, middle, until)
  {
    if exchanges != [] {
      PassedSplits(exchanges[..|exchanges| - 1], address, from, middle, until);
    }
  }

  /** The rate bound: in any half-open interval of 60 seconds at most 120 exchanges of an address pass. */
  lemma {:induction false} RateBound(exchanges: seq<Exchange>, address: Address, from: nat)
    requires InTime(exchanges)
    ensures Passed(exchanges, address, from, from + 60_000) <= 120
  {
    var minute := from / 1000 / 60;
    MinuteOf(from);
    var start, end := minute * WINDOW, (minute + 2) * WINDOW;
    PassedSplits(exchanges, address, start, from, end);
    PassedSplits(exchanges, address, from, from + WINDOW, end);
    PassedSplits(exchanges, address, start, (minute + 1) * WINDOW, end);
    FirstSixtyPass(exchanges, Bucket(address, minute));
    FirstSixtyPass(exchanges, Bucket(address, minute + 1));
  }

  /** The bound is met: sixty exchanges at the end of a minute and sixty at the start of the next. */
  lemma {:induction false} BoundIsTight(address: Address)
    ensures exists exchanges: seq<Exchange> ::
      InTime(exchanges) && Passed(exchanges, address, 59_999, 119_999) == 120
  {
    var burst := Burst(address, WINDOW - 1, LIMIT);
    var all := burst + Burst(address, WINDOW, LIMIT);
    var first, second := Bucket(address, 0), Bucket(address, 1);
    assert InTime(all);
    BurstHits(address, WINDOW - 1, LIMIT, first);
    BurstHits(address, WINDOW - 1, LIMIT, second);
    BurstHits(address, WINDOW, LIMIT, first);
    BurstHits(address, WINDOW, LIMIT, second);
    HitsAdd(burst, Burst(address, WINDOW, LIMIT), first);
    HitsAdd(burst, Burst(address, WINDOW, LIMIT), second);
    FirstSixtyPass(all, first);
    FirstSixtyPass(all, second);
    PassedSplits(all, address, 0, WINDOW - 1, WINDOW);
    PassedSplits(all, address, WINDOW - 1, WINDOW, 2 * WINDOW - 1);
    PassedSplits(all, address, WINDOW, 2 * WINDOW - 1, 2 * WINDOW);
    NothingPassedOutside(all, address, 0, WINDOW - 1);
    NothingPassedOutside(all, address, 2 * WINDOW - 1, 2 * WINDOW);
    assert Passed(all, address, WINDOW - 1, 2 * WINDOW - 1) == 2 * LIMIT;
  }

  function Burst(address: Address, at: nat, n: nat): seq<Exchange> {
    seq(n, i => Exchange(address, at))
  }

  lemma {:induction false} BurstHits(address: Address, at: nat, n: nat, bucket: Bucket)
    ensures Hits(Burst(address, at, n), bucket) == if BucketOf(Exchange(address, at)) == bucket then n else 0
  {
    if n != 0 {
      assert Burst(address, at, n)[..n - 1] == Burst(address, at, n - 1);
      BurstHits(address, at, n - 1, bucket);
    }
  }

  lemma {:induction false} HitsAdd(a: seq<Exchange>, b: seq<Exchange>, bucket: Bucket)
    ensures Hits(a + b, bucket) == Hits(a, bucket) + Hits(b, bucket)
  {
    if b == [] {
      assert a + b == a;
    } else {
      assert (a + b)[..|a + b| - 1] == a + b[..|b| - 1];
      HitsAdd(a, b[..|b| - 1], bucket);
    }
  }

  lemma {:induction false} NothingPassedOutside(exchanges: seq<Exchange>, address: Address, from: int, until: int)
    requires forall i | 0 <= i < |exchanges| :: !(from <= exchanges[i].at < until)
    ensures Passed(exchanges, address, from, until) == 0
  {
    if exchanges != [] {
      NothingPassedOutside(exchanges[..|exchanges| - 1], address, from, until);
    }
  }

  class Throttle {
    var counters: map<Bucket, Counter>

    constructor ()
      ensures counters == map[]
    {
      counters := map[];
    }

    /** `throttle_exchange`: false is the Throttled error. */
    method Admit(e: Exchange) returns (admitted: bool)
      modifies this
      ensures counters == Counted(old(counters), e)
      ensures admitted == Passes(old(counters), e)
    {
      var bucket := BucketOf(e);
      var count := 1;
      if bucket in counters && e.at < counters[bucket].deadline {
        count := counters[bucket].count + 1;
      }
      counters := counters[bucket := Counter(count, e.at + KEEP)];
      admitted := count <= LIMIT;
    }
  }
}
