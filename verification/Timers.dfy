/** Job timeouts. */
module Timers {
  import opened Scheduler

  /** A timeout pending on a live connection is about a job that runs there; none is about a job
      in `quiet`. */
  ghost predicate TimersOk(cons: map<Id, Con>, runs: map<Id, Id>, workers: map<Id, Worker>, quiet: set<Id>) {
    forall c :: c in cons && !cons[c].dead && cons[c].timer.Some? ==>
        TargetOk(cons[c].timer.value, c, runs, workers, quiet)
  }

  ghost predicate TargetOk(j: Id, c: Id, runs: map<Id, Id>, workers: map<Id, Worker>, quiet: set<Id>) {
    j !in quiet && j in runs && runs[j] in workers && workers[runs[j]].con == c
  }
}
