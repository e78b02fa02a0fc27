/** How often a job is handed to a worker. */
module Retries {
  import opened Scheduler
  import opened Tables

  /** How often job `j` was assigned. */
  ghost function Handouts(out: seq<Output>, j: Id): nat {
    if out == [] then 0
    else Handouts(out[..|out| - 1], j) + if out[|out| - 1].Assign? && out[|out| - 1].job == j then 1 else 0
  }

  lemma HandoutsEmit(out: seq<Output>, o: Output, j: Id)
    ensures Handouts(out + [o], j) == Handouts(out, j) + if o.Assign? && o.job == j then 1 else 0
  {
    assert (out + [o])[..|out|] == out;
  }

  function Limit(cfg: Config): nat { if cfg.jobRetries <= 1 then 1 else cfg.jobRetries }

  /** A job has been handed out once for each retry, and once more while it runs; its retries stay
      below the limit, except for a job that is about to be freed. */
  ghost predicate RetryOk(cfg: Config, job: Job, runs: bool, spent: bool, n: nat) {
    cfg.jobRetries >= 0 ==>
      n <= Limit(cfg) && (!spent ==> job.retries < Limit(cfg) && n <= job.retries + if runs then 1 else 0)
  }

  ghost predicate RetriesOk(cfg: Config, jobs: Jobs, runs: map<Id, Id>, out: seq<Output>, nextJob: Id, spent: set<Id>) {
    && (forall j :: j in jobs ==> RetryOk(cfg, jobs[j], j in runs, j in spent, Handouts(out, j)))
    && (forall j :: cfg.jobRetries >= 0 ==> Handouts(out, j) <= Limit(cfg))
    && (forall j :: j >= nextJob ==> Handouts(out, j) == 0)
  }

  lemma EmitRetries(cfg: Config, s: State, o: Output, spent: set<Id>)
    requires RetriesOk(cfg, s.jobs, s.runs, s.out, s.nextJob, spent) && !o.Assign?
    ensures RetriesOk(cfg, s.jobs, s.runs, s.out + [o], s.nextJob, spent)
  {
    forall j: Id { HandoutsEmit(s.out, o, j); }
  }

  /** A job that runs without having been handed out for it is handed out. */
  lemma AssignRetries(cfg: Config, s: State, c: Id, j: Id)
    requires RetriesOk(cfg, s.jobs, s.runs, s.out, s.nextJob, {})
    requires j in s.jobs && j in s.runs && j < s.nextJob
               && (cfg.jobRetries >= 0 ==> Handouts(s.out, j) <= s.jobs[j].retries)
    ensures RetriesOk(cfg, s.jobs, s.runs, s.out + [Assign(c, j)], s.nextJob, {})
  {
    forall k: Id { HandoutsEmit(s.out, Assign(c, j), k); }
  }
}
