/** Which jobs the server takes for one, and what of them the persistent queue holds. */
module Uniques {
  import opened Seqs
  import opened Ownership
  import opened Scheduler
  import opened Tables

  /** A chain search answers with a job that fits, and answers nothing only when none does. */
  lemma {:induction false} FindSpec(jobs: Jobs, chain: seq<Id>, p: Job -> bool)
    ensures var r := Find(jobs, chain, p);
            && (r.Some? ==> r.value in chain && r.value in jobs && p(jobs[r.value]))
            && (r.None? ==> forall j :: j in chain && j in jobs ==> !p(jobs[j]))
  {
    if chain != [] { FindSpec(jobs, chain[1..], p); }
  }

  /** A unique name of 1 to 63 bytes without NUL, other than "-". */
  ghost predicate Named(sp: Spec) {
    sp.unique != "" && sp.unique != "-" && |sp.unique| == sp.uniqueLength
  }

  /** The unique "-": the job is known by its data. */
  ghost predicate Dashed(sp: Spec) {
    sp.unique == "-" && sp.uniqueLength == 1 && sp.data != ""
  }

  /** Two jobs that `gearman_server_job_add_reducer` takes for one. */
  ghost predicate Equal(a: Spec, b: Spec) {
    a.fn == b.fn && ((Named(a) && Named(b) && a.unique == b.unique) || (Dashed(a) && Dashed(b) && a.data == b.data))
  }

  ghost predicate KeyedOk(cfg: Config, sp: Spec) {
    (Named(sp) ==> sp.uniqueKey == cfg.hash(sp.unique)) && (Dashed(sp) ==> sp.uniqueKey == cfg.hash(sp.data))
  }

  ghost predicate HandleOk(cfg: Config, j: Id, sp: Spec) {
    sp.handle == Handle(cfg.prefix, j + 1) && sp.handleKey == cfg.hash(sp.handle) && |sp.unique| < MAX_UNIQUE_SIZE
  }

  /** A job has the handle of its number and a unique that fits, and both hash keys are those of what
      they index. No two jobs are equal. */
  ghost predicate KeysOk(cfg: Config, jobs: Jobs) {
    && (forall j :: j in jobs ==> HandleOk(cfg, j, jobs[j].spec))
    && (forall j :: j in jobs ==> KeyedOk(cfg, jobs[j].spec))
    && (forall j, k :: j in jobs && k in jobs && Equal(jobs[j].spec, jobs[k].spec) ==> j == k)
  }

  lemma {:induction false} CStringClean(u: string)
    requires |CString(u)| == |u|
    ensures CString(u) == u
  {
    if u != "" && u[0] != '\0' { CStringClean(u[1..]); }
  }

  lemma {:induction false} CStringShort(u: string)
    ensures |CString(u)| <= |u|
  {
    if u != "" && u[0] != '\0' { CStringShort(u[1..]); }
  }

  /** What the stored unique of a new job says about the one given. */
  lemma NewSpec(cfg: Config, n: Id, f: Name, u: string, data: string, p: Priority, when: int)
    ensures var sp := NewJob(cfg, n, f, u, data, p, when).spec;
            && KeyedOk(cfg, sp) && HandleOk(cfg, n, sp)
            && (Named(sp) ==> sp.unique == u == CString(u) && u != "-" && u != "")
            && (Dashed(sp) ==> u == "-" && data != "")
  {
    CStringShort(u);
    if |CString(u)| == |u| { CStringClean(u); }
    var n := MAX_UNIQUE_SIZE - 1;
    assert |u| == n ==> u[..n] == u;
    assert |CString(u)| < |u| == 1 ==> CString(u) == "";
  }

  /** No job equal to the new one is live when the search for one has failed. */
  lemma NoEqual(cfg: Config, s: State, f: Name, u: string, data: string, p: Priority, when: int, k: Id)
    requires Owned(UniqueBuckets(cfg, s.jobs), s.uniqueIx) && KeysOk(cfg, s.jobs)
    requires FindEqual(cfg, s, f, u, data).None? && k in s.jobs
    ensures !Equal(NewJob(cfg, s.nextJob, f, u, data, p, when).spec, s.jobs[k].spec)
  {
    NewSpec(cfg, s.nextJob, f, u, data, p, when);
    var key, byData := UniqueKey(cfg, u, data), u == "-";
    var text := if byData then data else CString(u);
    FindSpec(s.jobs, List(s.uniqueIx, Bucket(cfg, key)),
             (job: Job) => job.spec.fn == f && job.spec.uniqueKey == key
                 && (if byData then job.spec.data == text else job.spec.unique == text));
    var b := UniqueBuckets(cfg, s.jobs)[k];
    assert k in s.uniqueIx[b];
  }

  lemma NewKeys(cfg: Config, s: State, f: Name, u: string, data: string, p: Priority, when: int)
    requires Owned(UniqueBuckets(cfg, s.jobs), s.uniqueIx) && KeysOk(cfg, s.jobs)
    requires FindEqual(cfg, s, f, u, data).None?
    ensures KeysOk(cfg, s.jobs[s.nextJob := NewJob(cfg, s.nextJob, f, u, data, p, when)])
  {
    hide NewJob, KeyedOk, HandleOk, FindEqual, Named, Dashed;
    NewSpec(cfg, s.nextJob, f, u, data, p, when);
    forall k | k in s.jobs ensures !Equal(NewJob(cfg, s.nextJob, f, u, data, p, when).spec, s.jobs[k].spec) {
      NoEqual(cfg, s, f, u, data, p, when, k);
    }
  }

  /** The job found is `j`, or one with its function and unique that was submitted with more bytes. */
  ghost predicate Same(jobs: Jobs, found: Option<Id>, j: Id) {
    && found.Some? && found.value in jobs && j in jobs
    && var a, b := jobs[found.value].spec, jobs[j].spec;
       && a.fn == b.fn && a.unique == b.unique && a.uniqueKey == b.uniqueKey
       && (a.uniqueLength == b.uniqueLength ==> found.value == j)
  }

  /** A unique other than "" and "-" is found again exactly when its C string fits into the 63 bytes
      that are kept of it, although 64 bytes are admitted. What is found has the same function and unique, and
      is the same job unless it was submitted with more bytes than that, and the same hash. */
  lemma FoundAgain(cfg: Config, s: State, j: Id, f: Name, u: string, data: string, p: Priority, when: int)
    requires Owned(UniqueBuckets(cfg, s.jobs), s.uniqueIx) && KeysOk(cfg, s.jobs) && u != "" && u != "-"
    requires j in s.jobs && s.jobs[j].spec == NewJob(cfg, j, f, u, data, p, when).spec
    ensures FindEqual(cfg, s, f, u, data).Some? <==> |CString(u)| < MAX_UNIQUE_SIZE
    ensures |CString(u)| == |u| < MAX_UNIQUE_SIZE ==> Same(s.jobs, FindEqual(cfg, s, f, u, data), j)
  {
    var key, text := UniqueKey(cfg, u, data), CString(u);
    FindSpec(s.jobs, List(s.uniqueIx, Bucket(cfg, key)),
             (job: Job) => job.spec.fn == f && job.spec.uniqueKey == key
                 && (if false then job.spec.data == text else job.spec.unique == text));
    var b := UniqueBuckets(cfg, s.jobs)[j];
    assert j in s.uniqueIx[b];
    assert |text| == MAX_UNIQUE_SIZE - 1 ==> text[..MAX_UNIQUE_SIZE - 1] == text;
    if |text| == |u| < MAX_UNIQUE_SIZE {
      CStringClean(u);
      var k := FindEqual(cfg, s, f, u, data).value;
      assert s.jobs[k].spec.uniqueLength == |u| ==> Equal(s.jobs[k].spec, s.jobs[j].spec);
    }
  }

  /** What the persistent queue must hold: the keys of the queued jobs, except those about to be
      freed. */
  ghost predicate Durable(jobs: Jobs, store: set<Key>, spent: set<Id>) {
    forall j :: j in jobs && j !in spent && jobs[j].queued && Named(jobs[j].spec) ==> KeyOf(jobs[j]) in store
  }

  /** Taking a job's key out of the persistent queue takes out no other job's. */
  lemma DoneDurable(cfg: Config, jobs: Jobs, store: set<Key>, j: Id)
    requires KeysOk(cfg, jobs) && Durable(jobs, store, {}) && j in jobs
    ensures Durable(jobs, store - {KeyOf(jobs[j])}, {j})
  {
    forall k | k in jobs && k != j && Named(jobs[k].spec) ensures KeyOf(jobs[k]) != KeyOf(jobs[j]) {
      assert !Equal(jobs[k].spec, jobs[j].spec);
    }
  }

  lemma CreateDurable(jobs: Jobs, store: set<Key>, j: Id, job: Job)
    requires Durable(jobs, store, {}) && !job.queued
    ensures Durable(jobs[j := job], store, {})
  {}

  lemma UnlinkDurable(cfg: Config, jobs: Jobs, store: set<Key>, spent: set<Id>, j: Id)
    requires Durable(jobs, store, spent) && KeysOk(cfg, jobs) && spent <= {j}
    ensures Durable(jobs - {j}, store, {}) && KeysOk(cfg, jobs - {j})
  {
    hide KeyedOk, HandleOk, Equal;
  }
}
