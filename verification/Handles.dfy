/** Job handles, and the index that finds a job by its handle. */
module Handles {
  import opened Seqs
  import opened Ownership
  import opened Scheduler
  import opened Tables
  import opened Uniques
  import opened Retries
  import opened Traces
  import opened Timers
  import opened Wakeups
  import opened Invariant
  import opened Steps
  import opened Guarantees

  const COUNTS := 0x1_0000_0000

  lemma {:induction false} DecimalDiffers(a: nat, b: nat)
    requires Decimal(a) == Decimal(b)
    ensures a == b
  {
    if a >= 10 && b >= 10 {
      var da, db := Decimal(a), Decimal(b);
      assert da[..|da| - 1] == Decimal(a / 10) && db[..|db| - 1] == Decimal(b / 10);
      assert da[|da| - 1] == db[|db| - 1];
      DecimalDiffers(a / 10, b / 10);
    } else {
      DecimalLong(a);
      DecimalLong(b);
    }
  }

  lemma {:induction false} DecimalLong(n: nat)
    ensures |Decimal(n)| >= 1 && (n >= 10 <==> |Decimal(n)| >= 2)
  {
    if n >= 10 { DecimalLong(n / 10); }
  }

  function Power(k: nat): nat { if k == 0 then 1 else 10 * Power(k - 1) }

  lemma {:induction false} DecimalShort(n: nat, k: nat)
    requires n < Power(k) && k >= 1
    ensures |Decimal(n)| <= k
  {
    if n >= 10 { DecimalShort(n / 10, k - 1); }
  }

  /** Ten digits are enough for a 32-bit count. */
  lemma TenDigits(n: nat)
    requires n < COUNTS
    ensures |Decimal(n)| <= 10
  {
    assert Power(4) == 10000;
    assert Power(8) == 10000 * Power(4);
    assert Power(10) == 100 * Power(8);
    DecimalShort(n, 10);
  }

  lemma HandleDiffers(prefix: string, a: nat, b: nat)
    requires |prefix| <= 52 && a < COUNTS && b < COUNTS && Handle(prefix, a) == Handle(prefix, b)
    ensures a == b
  {
    TenDigits(a);
    TenDigits(b);
    var p := prefix + ":";
    assert (p + Decimal(a))[|p|..] == Decimal(a) && (p + Decimal(b))[|p|..] == Decimal(b);
    assert Truncate(p + Decimal(a), 63) == p + Decimal(a);
    assert Truncate(p + Decimal(b), 63) == p + Decimal(b);
    DecimalDiffers(a, b);
  }

  /** A longer prefix leaves no room for the last of ten digits. */
  lemma HandleCollides(prefix: string)
    requires |prefix| > 52
    ensures Handle(prefix, 1000000000) == Handle(prefix, 1000000001)
  {
    hide Decimal;
    LastDigits();
    NineDigits();
    var p, nine := prefix + ":", Decimal(100000000);
    var q := p + nine;
    assert p + (nine + ['0']) == q + ['0'] && p + (nine + ['1']) == q + ['1'];
    assert (q + ['0'])[..63] == q[..63] == (q + ['1'])[..63];
  }

  lemma LastDigits()
    ensures Decimal(1000000000) == Decimal(100000000) + ['0'] && Decimal(1000000001) == Decimal(100000000) + ['1']
  {
    hide Decimal;
    DecimalLast(1000000000);
    DecimalLast(1000000001);
  }

  lemma DecimalLast(n: nat)
    requires n >= 10
    ensures Decimal(n) == Decimal(n / 10) + [('0' as int + n % 10) as char]
  {
  }

  lemma NineDigits()
    ensures |Decimal(100000000)| == 9
  {
    assert |Decimal(100000000)| == 1 + |Decimal(10000000)|;
    assert |Decimal(10000000)| == 1 + |Decimal(1000000)|;
    assert |Decimal(1000000)| == 1 + |Decimal(100000)|;
    assert |Decimal(100000)| == 1 + |Decimal(10000)|;
    assert |Decimal(10000)| == 1 + |Decimal(1000)|;
    assert |Decimal(1000)| == 1 + |Decimal(100)|;
    assert |Decimal(100)| == 1 + |Decimal(10)|;
    assert |Decimal(10)| == 1 + |Decimal(1)|;
  }

  ghost predicate Distinct(prefix: string) {
    forall a: nat, b: nat :: a < COUNTS && b < COUNTS && Handle(prefix, a) == Handle(prefix, b) ==> a == b
  }

  /** The handles of the first 2^32 jobs are distinct exactly when the prefix has at most 52 bytes. */
  lemma HandlesDistinct(prefix: string)
    ensures Distinct(prefix) <==> |prefix| <= 52
  {
    hide Handle;
    if |prefix| <= 52 {
      forall a: nat, b: nat | a < COUNTS && b < COUNTS && Handle(prefix, a) == Handle(prefix, b) ensures a == b {
        HandleDiffers(prefix, a, b);
      }
    } else {
      HandleCollides(prefix);
    }
  }

  /** The chain of a key holds every job with that key. */
  lemma Chained(cfg: Config, t: State, j: Id)
    requires Owned(HandleBuckets(cfg, t.jobs), t.handleIx) && j in t.jobs
    ensures j in List(t.handleIx, Bucket(cfg, t.jobs[j].spec.handleKey))
  {
    var b := HandleBuckets(cfg, t.jobs)[j];
    assert j in t.handleIx[b];
  }

  lemma HandleOf(cfg: Config, x: Phase, t: State, j: Id)
    requires Inv(cfg, t, x) && Steady(x) && j in t.jobs
    ensures HandleOk(cfg, j, t.jobs[j].spec) && j < t.nextJob
    ensures Owned(HandleBuckets(cfg, t.jobs), t.handleIx)
  {
    hide Owned, CountsOk, Durable, RetriesOk, TraceOk, TimersOk, WatchOk, HandleOk, KeyedOk, Equal, RunRefs,
         WorkerRefs, ClientRefs, ConRefs, Waiting;
  }

  /** With handles distinct, the search by handle answers as a plain map from handles to live jobs
      would, filtered by who runs the job. */
  lemma IndexAgrees(cfg: Config, x: Phase, t: State, handle: string, owner: Option<Id>, j: Id)
    requires Reached(cfg, x, t) && |cfg.prefix| <= 52 && t.nextJob < COUNTS
    ensures JobGet(cfg, t, handle, owner) == Some(j) <==>
              j in t.jobs && t.jobs[j].spec.handle == handle && (owner.Some? ==> RunsOn(t, j, owner.value))
  {
    hide Reached, Inv, Owned, Handle, Bucket, RunsOn;
    ReachedInv(cfg, x, t);
    JobGets(cfg, t, handle, owner);
    if j in t.jobs && t.jobs[j].spec.handle == handle {
      HandleOf(cfg, x, t, j);
      Chained(cfg, t, j);
      var key := cfg.hash(handle);
      var chain := List(t.handleIx, Bucket(cfg, key));
      FindSpec(t.jobs, chain, (job: Job) => job.spec.handleKey == key && job.spec.handle == handle);
      var found := Find(t.jobs, chain, (job: Job) => job.spec.handleKey == key && job.spec.handle == handle);
      HandleOf(cfg, x, t, found.value);
      HandleDiffers(cfg.prefix, j + 1, found.value + 1);
    }
  }
}
