# A model of the gearmand server

gearmand takes jobs from clients and hands them to workers. This project models the server in Dafny
and proves what it promises, in three parts that are joined at the end.

**The scheduler** (`job.cc`, `gearmand_con.cc`, `server.cc`, `worker.cc`, `client.cc`, `function.cc`).
`Scheduler`, `Selection` and `Commands` say what each operation makes of the tables of jobs, functions,
workers, connections and clients, and of the lists and hash chains that tie them together. An `Event` is
one command, one timer, or the coming or going of a connection; a run is any sequence of events that are
possible when they happen. `Invariant` holds what every run keeps, `Tables`, `Uniques`, `Retries`,
`Traces`, `Timers` and `Wakeups` its parts, `Records`, `Notices`, `JobOps`, `Choices` and `Steps` the
proof that every step keeps it. `Guarantees`, `Handles`, `Taking`, `RoundRobin`, `Scans`, `Peeking`,
`Turning`, `Thinning`, `Requeues` and `Attendance` say what follows for whoever uses the server, `Answers`
and `Submits` what each command does and answers, `Limits`, `Stale`, `Endings`, `Losses`, `Hanging` and
`Naps` where the guarantees end, and `Effects`, `Scenes`, `Corners`, `Lost` and `Slips` hold concrete runs.
`Server` is the same server in place: a class whose methods have the loops and assignments of the source and
are proved to do what the functions say.
`JobFifo` and `WorkerLinks` go down to the links: the FIFO with its head and tail pointers, the linear
worker list of a connection and the circular one of a function.

**The threads** (`connection.cc`, `_proc` in `gearmand_con.cc`, `thread.cc`). `ConThreads` is a state
machine of any number of IO threads and the processing thread, with one step for each lock region and
each access to a flag outside a lock. `ConSafety` proves its invariant over all interleavings, and
`PacketFlow` that what is read is run. `Joint` runs it together with the scheduler.

**The wire** (`io.cc`, `packet.cc`, the Gear protocol plugin). `Sender` is the resumable sender, with its
switch that is re-entered in the middle of a loop. `Framing` and `Packets` are how a packet is laid out
in memory and read back from a stream.

Conditional guarantees have their condition in `Steps.Allowed` and `Attendance.Attentive`, event by
event. A run is *punctual* when no job timeout fires while its job waits in its FIFO, which breaks the
invariant. No caller can see that from the commands, so `Guarantees.Orderly` proves it of every run that
meets two conditions on its events: no CANT_DO or RESET_ABILITIES removes the worker of a timed job, and
no timeout of a dead connection fires.

Where the source falls short of a promise, the project keeps what the source does, gives a run from a
fresh server that ends in the failure, and says exactly when it falls short:

- In round-robin mode GRAB_JOB does not return exactly when, at some priority, two or more workers of the
  connection have jobs that are not due, and no job that is wanted is due at that priority or above; due
  jobs that are ignored are discarded on the way and do not help (`Hanging.GrabHangs`, `Scans.ScanEnds`;
  `Corners.TurnsForever`).
- In round-robin mode PRE_SLEEP, coming upon an ignored job, may not return either (`Hanging.SleepHangs`,
  `Hanging.SleepHangsBelow`, `Hanging.SleepEnabled`; `Corners.TurnsForever`).
- PRE_SLEEP, coming upon an ignored job, may discard another that somebody waits for
  (`Losses.PeekLoses`, `Peeking.PeekDiscards`, `Attendance.PeekForgets`; `Lost.SleepsOverAbandoned`).
- A client that submits a unique whose job is already ignored is attached to it, and is told nothing when
  the job is discarded (`Attendance.SubmitAttends`, `Attendance.TakeForgets`; `Lost.AsksForAbandoned`).
- CANT_DO and RESET_ABILITIES can leave a job timeout behind (`Stale.StaleTimeout`), and so can a GRAB_JOB
  that is served after its connection died. Such a timeout puts the job into its FIFO a second time if it
  fires while the job waits (`Limits.TimeoutPlaces`; `Scenes.CantDoThenTimeout`, `Scenes.DeadTimeout`), and
  takes the job from another connection if it fires while the job runs there (`Stale.FiredTimers`;
  `Scenes.DeadTimeoutRobs`).
- A job that is canceled while clients are attached is heard of again (`Endings.CancelTraced`,
  `Endings.CanceledHearsMore`; `Scenes.CancelThenComplete`).
- A job whose result cannot be taken out of the persistent queue stays, and can be answered again
  (`Endings.ResultTraced`; `Scenes.UnstoredTwice`).
- CAN_DO from a sleeping connection does not look whether there is something to do
  (`Limits.CanDoWatch`; `Corners.SleepThenCanDo`).
- PRE_SLEEP does not forget that a NOOP was sent: a connection that was woken and sleeps again without
  GRAB_JOB is not woken any more (`Naps.SleepsDeaf`, `Naps.QueueTells`, `Naps.NoSecondNoop`;
  `Corners.Oversleeps`).
- A background job that a foreground client has joined is not run once its clients are gone, although it was
  submitted to be, and its key stays in the persistent queue (`Requeues.CleanUpAbandons`,
  `Requeues.CleanUpStore`; `Slips.BackgroundAbandoned`). The comment in `client.cc` speaks of foreground jobs
  only; the code does not ask.
- GRAB_JOB that comes upon ignored jobs only deletes the job timeout of its connection, which may be about
  another job that runs there (`Answers.GrabAnswers`; `Slips.TimeoutDeleted`).
- 64 bytes of a unique are admitted and 63 kept (`Guarantees.Coalesces`; `Corners.LongUnique`).
- Handles collide when the prefix has more than 52 bytes (`Handles.HandlesDistinct`; `Corners.LongPrefix`).

The clock is read once per step and does not go back. The answers of `send()`, of the persistent queue
and of the queueing of an assignment are inputs. The hash functions and the number of buckets are
arbitrary.

## Model

| member | source | states |
|---|---|---|
| Sender.Connection.Flush | libgearman-server/io.cc:292-449 | writes out the window of `send_buffer_ptr`: on success everything it was to write is on the wire and the sender is idle, on a would-block the window is what has still to go, on an error the connection is closed |
| Sender.Connection.Pack | libgearman-server/io.cc:592-648 | header and arguments go into the send buffer, after a flush when they do not fit; they are refused only when they exceed the whole buffer; re-entry in the middle of that flush goes on where it was |
| Sender.Connection.IoSend | libgearman-server/io.cc:592-750 | entered in any of its five states it goes on with the packet where it stopped: on success exactly the bytes of the packet are written or buffered (all written when it is the last), otherwise it can be entered again; each error says why |
| Sender.Connection.Enqueue | libgearman-server/packet.cc:140-207 | adds the bytes of one packet to the end of the stream and keeps the invariant, also in the middle of a send |
| Sender.Connection.PacketFlush | libgearman-server/thread.cc:339-392 | over all packets and all packets that other threads add meanwhile: success means the queue is empty and what is on the wire is the whole stream |
| Sender.Connection.Conserved | libgearman-server/io.cc:592-750 | at any moment the bytes on the wire followed by the bytes pending are the bytes of every packet ever queued, in order: nothing lost, nothing repeated |
| Steps.StepInv | libgearman-server/server.cc:106-937 | every command, timer, connection and disconnection keeps the invariant of the scheduler, and each conditional guarantee whose condition the step meets; a job timeout must not fire while its job waits, or, for the guarantee about timeouts, not on a dead connection |
| Steps.RunInv | libgearman-server/server.cc:106-937 | so does every run whose events meet these conditions, whatever its length and order |
| Server.Server.Perform | libgearman-server/server.cc:106-937 | the steps in place, loop by loop and assignment by assignment, do exactly what the value-level `Step` says and keep the invariant, under the conditions of `Steps.StepInv` |
| Guarantees.Orderly | libgearman-server/connection.cc:664-765 | in every run in which no CANT_DO or RESET_ABILITIES removes the worker of a timed job and no timeout of a dead connection fires, every timeout fires while its job runs: what holds after punctual runs holds after all runs that meet these two conditions on their events |
| Guarantees.PlacedOnce | libgearman-server/job.cc:439-592 | after every punctual run each live job is in exactly one place: once in the FIFO of its function and priority, or once on the running list of one worker for its function, and nowhere else |
| Guarantees.StatusBalances | libgearman-server/text.cc:134-168 | after every punctual run `job_count` is the sum of the lengths of the three FIFOs, `job_running` the number of jobs assigned, and `job_total` the two together and the number of live jobs |
| Guarantees.ListedOnce | libgearman-server/worker.cc:68-93 | after every punctual run each worker is once on the list of its connection and once on that of its function, each client once on the list of its connection and once on that of its job, and nothing else is on them |
| Guarantees.Unreferenced | libgearman-server/connection.cc:374-381 | after every punctual run nothing refers to a connection that was cleaned up: no worker, no client and no running job |
| Guarantees.NoTwins | libgearman-server/job.cc:283-312 | after every punctual run no two live jobs of a function share a unique of 1 to 63 bytes, and no two "-" jobs share their data, whatever the hash function and the number of buckets |
| Guarantees.Coalesces | libgearman-server/job.cc:67-98 | after every punctual run a unique submitted again while its job is live is recognised exactly when its C string fits into the 63 bytes kept of it, although 64 are admitted; what is found is that job, or one of the same function, stored unique and hash that was submitted with more bytes |
| Submits.SubmitAnswers | libgearman-server/job.cc:266-436 | a submission is an error if its unique is too long; else it joins a live job of the function with that unique (with that data, for "-") and hash, if there is one; else it is an error if the function has as many jobs as its limit for the priority, or the persistent queue fails, and leaves no trace; else it makes one job, with what was submitted, last in the FIFO of its function and priority, stored if it is a background job; the client is told the job and, in the foreground, waits for it |
| Submits.SearchFinds | libgearman-server/job.cc:67-98 | the search for an equal job finds one that matches whenever there is one |
| Submits.ReplayAnswers | libgearman-server/job.cc:266-436 | a replay from the persistent queue makes a job in the same way, and leaves the persistent queue as it is |
| Submits.LimitHolds | libgearman-server/job.cc:316-324 | a limit holds from the moment it is set, for its function and no other |
| Guarantees.HandedOut | libgearman-server/job.cc:497-545 | over every punctual run with `job_retries` N >= 0 no job is handed out more than max(1, N) times, and a live job has been retried fewer times than that |
| Requeues.TimeoutFate | libgearman-server/job.cc:495-592 | a running job whose timeout fires: with N = `job_retries`, if N < 0 or its retries are below N - 1, it is the last of its FIFO, one retry older, and nobody was told anything; otherwise it is gone, each of its clients was told WORK_FAIL in order, and the persistent queue has lost its key and nothing else |
| Requeues.ReleaseFates | libgearman-server/worker.cc:121-149 | CANT_DO and RESET_ABILITIES: each job that ran on a removed worker waits again behind all that waited before, untouched but for its retries, or has failed with its clients told, by the same rule; every other job is left aside, and the persistent queue loses just the keys of those that failed |
| Requeues.CleanUpFates | libgearman-server/gearmand_con.cc:526-537 | the same for the jobs of a connection that is cleaned up |
| Requeues.CleanUpStore | libgearman-server/job.cc:522-535 | the clean-up of a connection takes just the keys of those of its jobs that fail out of the persistent queue |
| Requeues.CleanUpAbandons | libgearman-server/client.cc:88-105 | when a connection is cleaned up a job lives on unless it ran there at its last try, and is ignored from then on if and only if it was before or only clients of that connection waited for it; a background job that such clients had joined is no exception |
| Slips.BackgroundAbandoned | libgearman-server/client.cc:97-103 | the run: a job is submitted in the background, a foreground client joins it, goes, and is cleaned up; the job is ignored, and its key is still in the persistent queue |
| Requeues.AssignFate | libgearman-server/server.cc:602-700 | GRAB_JOB whose answer cannot be queued: the best job there was goes back to the end of its FIFO, or fails, by the same rule |
| Guarantees.Stored | libgearman-server/job.cc:384-404 | after every punctual run a live job that is marked as queued and has a unique of 1 to 63 bytes has its key in the persistent queue |
| Guarantees.CompletionSpares | libgearman-server/server.cc:791-806 | after every punctual run a result leaves the key of a queued job with a unique of 1 to 63 bytes in the persistent queue if and only if it is not an accepted result of that very job that could be stored |
| Guarantees.OneEnding | libgearman-server/server.cc:773-907 | over every punctual run in which no job with clients is canceled and no result is lost to a failing persistent queue: one terminal result per job at most, and a client record hears nothing of its job after a terminal packet |
| Steps.AcceptedFromOwner | libgearman-server/server.cc:773-907 | a step accepts a terminal result only if it is a WORK_COMPLETE, WORK_EXCEPTION or WORK_FAIL from the connection that runs the job, and then exactly one |
| Answers.ResultAnswers | libgearman-server/server.cc:773-907 | an accepted WORK_COMPLETE, WORK_EXCEPTION or WORK_FAIL: exactly one packet for each client of the job, in order, of the kind sent (WORK_FAIL for an exception a client did not ask for); then the job is gone and its key, if it was stored, is out of the persistent queue, and no other; if that fails nothing else changes |
| Answers.UpdateAnswers | libgearman-server/server.cc:1024-1079 | WORK_DATA, WORK_WARNING and WORK_STATUS: exactly one packet of that kind for each client, in order, and nothing else changes |
| Answers.CancelAnswers | libgearman-server/gearmand_con.cc:258-311 | a cancel: exactly one WORK_FAIL for each client, in order; the job is ignored and its key, and no other, is out of the persistent queue, unless that fails |
| Answers.NotYours | libgearman-server/server.cc:773-785 | a result or update from a connection that does not run the job is answered with an error and changes nothing |
| Answers.ExceptionsHeard | libgearman-server/server.cc:501-504 | after OPTION_REQ exceptions the clients of that connection, and no others, hear exceptions as such |
| Answers.DisconnectAnswers | libgearman-server/connection.cc:181-203 | a connection whose socket fails is marked dead, and nothing else moves: its job timeout is gone, it is not woken any more, and it can be cleaned up |
| Endings.CancelTraced | libgearman-server/gearmand_con.cc:258-311 | canceling a job keeps that guarantee if and only if nobody is attached to the job |
| Endings.ResultTraced | libgearman-server/server.cc:773-907 | a result that is accepted keeps it if and only if the job is not in the persistent queue or can be taken out of it |
| Endings.CanceledHearsMore | libgearman-server/gearmand_con.cc:258-311 | after a job with clients was canceled, the next result, update or cancel of it reaches clients that were told it had ended |
| Endings.UnstoredEndsTwice | libgearman-server/server.cc:791-806 | a result that could not be taken out of the persistent queue is accepted again when it is sent again |
| Scenes.CancelThenComplete | libgearman-server/gearmand_con.cc:258-311 | the run: connect, CAN_DO, submit in the foreground, GRAB_JOB, cancel, WORK_COMPLETE; its client is told twice |
| Scenes.UnstoredTwice | libgearman-server/server.cc:791-806 | the run: connect, CAN_DO, submit in the background, GRAB_JOB, WORK_COMPLETE while the persistent queue fails, WORK_COMPLETE; two results are accepted |
| Guarantees.TimeoutRuns | libgearman-server/connection.cc:664-765 | over every run in which no CANT_DO or RESET_ABILITIES removes the worker of a timed job and no timeout of a dead connection fires: a timeout pending on a live connection is about a live job that runs there |
| Stale.StaleTimeout | libgearman-server/connection.cc:340-381 | exactly when the removal of workers leaves a timeout that is about no job running there: when it was about a job of theirs and none of their jobs was at its last retry |
| Limits.TimeoutPlaces | libgearman-server/connection.cc:664-683 | a job timeout leaves every job in one place exactly when its job does not wait in its FIFO |
| Stale.FiredTimers | libgearman-server/connection.cc:664-683 | a timeout that fires leaves every timeout of a live connection about a job that runs there, or gone, if and only if its job has no timeout on another live connection that runs it, or is at its last retry |
| Scenes.CantDoThenTimeout | libgearman-server/connection.cc:340-372 | the run: connect, CAN_DO with a timeout, submit, GRAB_JOB, CANT_DO, timeout; the job is in its FIFO twice |
| Scenes.DeadTimeout | libgearman-server/server.cc:694-698 | the run: a connection dies, its GRAB_JOB is still served and arms a timeout, it is cleaned up, the timeout fires; the job is in its FIFO twice |
| Scenes.DeadTimeoutRobs | libgearman-server/connection.cc:664-683 | the same, but a live connection grabs the job before the timeout fires: the job is taken from it, and its own timeout is then about a job it does not run |
| Guarantees.NobodyOversleeps | libgearman-server/job.cc:547-602 | over every run with `worker_wakeup` 0 in which no sleeping connection registers a function: a queued job that is not due, or that a sleeping connection could run, has an epoch timer armed at or before its time |
| Answers.SleepAnswers | libgearman-server/server.cc:577-599 | PRE_SLEEP: if a job is left that the connection could run, exactly one NOOP is sent, to it, and it does not go to sleep; otherwise it sleeps, without a job timeout, and is sent nothing |
| Limits.CanDoWatch | libgearman-server/server.cc:525-565 | a sleeping connection that registers a function keeps that guarantee exactly when each queued job of the function has such a timer |
| Corners.SleepThenCanDo | libgearman-server/server.cc:525-607 | the run: connect, submit, PRE_SLEEP, CAN_DO; the connection sleeps, the job is due, and nothing is armed to wake it |
| Naps.NoSecondNoop | libgearman-server/server.cc:577-607 | over every run: a connection that was sent a NOOP is sent no other, whatever is queued and however often it goes to sleep, until it sends GRAB_JOB, sends PRE_SLEEP while there is a job for it, or goes |
| Naps.QueueTells | libgearman-server/job.cc:547-577 | with `worker_wakeup` 0 a job that is queued makes a NOOP, and just one, for exactly the connections that registered for its function, sleep, and were sent none since they last asked for a job |
| Naps.QueueTellsSome | libgearman-server/job.cc:547-577 | with `worker_wakeup` N > 0 a job that is queued makes at most N NOOPs, and fewer only if afterwards no connection registered for its function is left asleep and untold |
| Naps.EpochTells | libgearman-server/job.cc:173-240 | with `worker_wakeup` 0 the epoch timer of a function tells exactly the same connections |
| Naps.SleepsDeaf | libgearman-server/server.cc:577-585 | a connection that goes to sleep is one of these if and only if it was sent no NOOP since it last asked for a job: PRE_SLEEP does not forget the NOOP |
| Corners.Oversleeps | libgearman-server/server.cc:577-607 | the run: connect, CAN_DO, PRE_SLEEP, a job for later is submitted and a NOOP sent, PRE_SLEEP, a job for now is submitted; the connection sleeps, could run it, and is not told |
| Attendance.NobodyForgotten | libgearman-server/server.cc:1024-1079 | over every punctual run in which no client is attached to an ignored job and no PRE_SLEEP would discard a wanted job: a client that waits at some time still waits at any later time, or was told how its job ended, or its connection was cleaned up; without round robin the condition on PRE_SLEEP is the one of `Losses.PeekLoses` |
| Attendance.SubmitAttends | libgearman-server/job.cc:407-436 | after every such run a submission keeps that guarantee if and only if it attaches no client to an ignored job |
| Attendance.TakeForgets | libgearman-server/gearmand_con.cc:449-456 | a client attached to an ignored job that GRAB_JOB comes upon loses its record and is told nothing |
| Attendance.PeekForgets | libgearman-server/gearmand_con.cc:337-348 | the clients of a job that PRE_SLEEP discards in place of the one it looked at lose their records and are told nothing |
| Losses.PeekLoses | libgearman-server/gearmand_con.cc:313-353 | on a list of workers that does not turn, PRE_SLEEP discards a job that is wanted if and only if some ignored job that is due is looked at before every wanted one, worker by worker, and some wanted one has a higher priority |
| Lost.AsksForAbandoned | libgearman-server/gearmand_con.cc:449-456 | the run: a client leaves, its job is ignored, another client submits the same unique, a worker grabs; the second client's record goes and it is told nothing |
| Lost.SleepsOverAbandoned | libgearman-server/gearmand_con.cc:337-348 | the run: an abandoned job of low priority waits for the first function of a worker, a wanted one of high priority for its second, PRE_SLEEP; the wanted job is discarded and its client told nothing |
| Taking.TakeBest | libgearman-server/gearmand_con.cc:361-463 | the job taken is due, wanted and for a function the connection registered, and none such of a higher priority, or earlier in its FIFO, is left behind; nothing is taken only when there is no such job |
| Taking.TakeKeeps | libgearman-server/gearmand_con.cc:361-463 | the jobs that stay queued keep their order, and only the job taken and due ignored ones leave their FIFOs |
| Answers.GrabAnswers | libgearman-server/server.cc:602-700 | GRAB_JOB: if a job is wanted, the best one is assigned, unchanged, to the connection, which is told just that, and the timeout is armed for it if its workers for the function have one, and is none if they have none; otherwise it is told that there is no job, and its timeout is as before unless an ignored job was discarded on the way; either way it is awake and may be sent NOOPs again |
| Slips.TimeoutDeleted | libgearman-server/gearmand_con.cc:449-456 | the run: a job runs under a timeout, a second one is abandoned, its connection sends GRAB_JOB; there is no job for it, the first one still runs, and its timeout is gone |
| JobFifo.Fifo.Enqueue | libgearman-server/job.cc:580-592 | a job goes to the end of the linked list; head, tail, links and count again describe the sequence |
| JobFifo.Fifo.TakeFirstDue | libgearman-server/gearmand_con.cc:422-447 | the first due job, and no other, leaves the linked list, be it head, tail, both or neither; head, tail, links and count again describe the sequence |
| JobFifo.TakesFirstDue | libgearman-server/gearmand_con.cc:422-432 | the position it takes from is the one the scheduler's sequences choose |
| Scans.ScanEnds | libgearman-server/gearmand_con.cc:366-420 | at a fixed clock the scan of a priority ends if and only if there is no round robin, or some worker has a due job, or at most one has something queued and nothing due; then it has come to what `Scan` says |
| Hanging.GrabHangs | libgearman-server/gearmand_con.cc:361-463 | GRAB_JOB does not end if and only if there is round robin and, at some priority, two workers of the connection have jobs that are not due while no wanted job is due at that priority or above; ignored jobs that are due do not help |
| Hanging.GrabEnabled | libgearman-server/server.cc:602-611 | so GRAB_JOB is a step of a run exactly when no priority is blocked in that sense before it |
| Hanging.SleepHangs | libgearman-server/gearmand_con.cc:313-353 | when no job is wanted, PRE_SLEEP does not end if and only if there is round robin and an ignored job is due below a priority at which two workers have jobs that are not due |
| Hanging.SleepHangsBelow | libgearman-server/gearmand_con.cc:313-353 | when two workers have jobs that are not due, and nothing is due at that priority or above, PRE_SLEEP does not end if and only if there is round robin and the job it looks at is ignored |
| Hanging.SleepBlocked | libgearman-server/gearmand_con.cc:313-353 | whatever else waits: with round robin PRE_SLEEP does not end when the job it looks at is ignored and GRAB_JOB is blocked above its priority |
| Hanging.SleepEnabled | libgearman-server/server.cc:577-599 | PRE_SLEEP is a step of a run without round robin, and whenever no ignored job is due below a priority at which two workers have jobs that are not due |
| Corners.TurnsForever | libgearman-server/gearmand_con.cc:366-456 | the run: in round-robin mode a connection can do two functions; one has a canceled job of any priority that is due, and both have a job of high priority for later; its GRAB_JOB does not end, nor, unless the canceled job is of high priority, its PRE_SLEEP |
| Choices.ScanReorders | libgearman-server/gearmand_con.cc:395-409 | the list of workers a scan leaves is a permutation of the one before |
| Server.Server.ScanWorkers | libgearman-server/gearmand_con.cc:366-420 | the scan as a loop that turns the list it walks over |
| RoundRobin.BoundedWaiting | libgearman-server/gearmand_con.cc:395-409 | a worker that has a due job at the top priority throughout, with nothing queued that is not due, is selected within as many selections as the connection has workers |
| Peeking.PeekDiscards | libgearman-server/gearmand_con.cc:313-353 | coming upon an ignored job, `peek` discards that very job if and only if every eligible job of higher priority is ignored as well |
| Turning.TurnsDiscard | libgearman-server/gearmand_con.cc:313-353 | with round robin too: when nothing is queued for the function of the ignored job looked at above its priority, and every eligible job of higher priority is ignored as well, that very job is discarded |
| Peeking.OneWorkerAgrees | libgearman-server/gearmand_con.cc:313-353 | with one worker on the connection `peek` always discards the job it looked at |
| Server.Server.TakeJob | libgearman-server/gearmand_con.cc:361-463 | the search for a job, in place, is the value-level `Take` |
| Server.Server.PeekJob | libgearman-server/gearmand_con.cc:313-353 | the look for a job, in place, is the value-level `Peek` |
| Handles.HandlesDistinct | libgearman-server/job.cc:339-352 | the handles of 2^32 jobs are distinct if and only if the prefix has at most 52 bytes |
| Corners.LongPrefix | libgearman-server/job.cc:339-352 | the run: with a prefix of 63 bytes, two jobs submitted one after the other have the same handle |
| Corners.LongUnique | libgearman-server/job.cc:339-352 | the run: the same unique of 64 bytes submitted twice makes two jobs |
| Handles.IndexAgrees | libgearman-server/gearmand_con.cc:231-256 | after every punctual run with such a prefix the search by handle answers as a map from handles to live jobs would, filtered by who runs the job |
| Server.Server.FindByHandle | libgearman-server/gearmand_con.cc:231-256 | the walk along the hash chain is the value-level `JobGet` |
| Server.Server.FindByUnique | libgearman-server/job.cc:67-98 | the walk along the hash chain of uniques is the value-level `GetUnique` |
| Server.Server.AddJob | libgearman-server/job.cc:266-436 | adding a job, with its error paths, in place: an equal job found, the queue full, the persistent queue failing |
| Server.Server.RequeueJob | libgearman-server/job.cc:495-602 | a running job goes to the end of its FIFO while it has retries to spare, and otherwise is gone with its clients told and its key out of the persistent queue; in place |
| Server.Server.FreeJobAt | libgearman-server/job.cc:439-493 | a job leaves the timeout, its clients, its worker, the counters and both hash chains, in this order |
| Server.Server.WakeSleeping | libgearman-server/job.cc:547-577 | the NOOPs around the circular list of workers, which they turn |
| Server.Server.FireEpoch | libgearman-server/job.cc:173-240 | the epoch timer wakes workers, forgets the past and is armed for what comes next |
| Server.Server.CancelByHandle | libgearman-server/gearmand_con.cc:258-311 | all clients of the job are told that it failed and stay attached, the job stays where it is, is ignored from now on and out of the persistent queue (unless it cannot be taken out of that), and no other job, worker or connection changes |
| Server.Server.CleanUpCon | libgearman-server/gearmand_con.cc:526-537 | afterwards no worker, client or running job refers to the dead connection, it is marked as cleaned up, and the invariant holds |
| WorkerLinks.Registry.Create | libgearman-server/worker.cc:49-98 | a worker is linked first into the list of its connection and last into the ring of its function; all links, heads and counts again describe the sequences |
| WorkerLinks.Registry.Free | libgearman-server/worker.cc:121-149 | a worker is unlinked from both, and nothing else moves |
| WorkerLinks.Registry.FreeByName | libgearman-server/connection.cc:340-372 | the loop over the list that it shrinks ends, and has removed exactly the workers of the function from the connection, and those of the connection from the function's ring; all others keep their order |
| WorkerLinks.Registry.MoveToEnd | libgearman-server/gearmand_con.cc:176-191 | a worker goes to the end of its connection's list, the others keep their order |
| WorkerLinks.Registry.Rouse | libgearman-server/job.cc:547-577 | the walk around the ring of a function tells exactly the sleeping connections of the workers it passes, passes all or no more than it takes to tell as many as `worker_wakeup` says, ends, and leaves the ring turned to where it stopped |
| ConSafety.RunInv | libgearman-server/connection.cc:181-306 | every interleaving of the steps of the IO threads and the processing thread keeps the invariant of the connection protocol |
| ConSafety.DestroyedSafely | libgearman-server/connection.cc:204-306 | in every interleaving a connection is destroyed only by its own IO thread, dead, cleaned up, on no list and in no other thread's hands |
| ConSafety.DestroyedOnce | libgearman-server/connection.cc:204-306 | once destroyed, no thread holds the connection, no list does, and in no continuation does any thread come to destroy it again: at most once per incarnation |
| ConSafety.CommandsOnLive | libgearman-server/gearmand_con.cc:480-541 | no command runs on a connection that was cleaned up or destroyed |
| ConSafety.NeverForgotten | libgearman-server/connection.cc:382-502 | a dead connection is always on the processing, io or to-be-freed list of its thread, or in the hands of a thread that will put it there or free it |
| ConSafety.ProcWoken | libgearman-server/connection.cc:558-603 | no wakeup is lost: while the processing thread waits and nobody is about to signal, a non-empty processing list means that it was woken |
| ConSafety.NothingLeft | libgearman-server/connection.cc:382-662 | when every thread waits and no wakeup is under way all lists are empty, every connection whose socket failed has been destroyed, and every packet that was read has been taken out |
| PacketFlow.ReadIsListed | libgearman-server/gearmand_con.cc:480-541 | in every interleaving a connection with packets that were read and that was not cleaned up is on the processing list, or about to be put there, or being drained |
| PacketFlow.PacketsAccounted | libgearman-server/gearmand_con.cc:508-520 | over every interleaving, as many commands were begun on a connection as packets were read from it, but for those still waiting: none is lost and none runs twice |
| PacketFlow.EveryPacketRuns | libgearman-server/gearmand_con.cc:508-520 | when every thread waits, as many commands were begun on a connection as packets were read from it |
| PacketFlow.CleanedLater | libgearman-server/gearmand_con.cc:521-541 | a connection is not cleaned up in a visit of the processing thread in which one of its commands ran: if it is dead by then it goes round its IO thread once more |
| Joint.TraceInv | libgearman-server/gearmand_con.cc:465-543 | the threads and the scheduler, stepping in any order, keep both invariants and agree on which connections there are, are dead and were cleaned up, under the conditions of `Steps.StepInv` |
| Joint.RunDestroys | libgearman-server/connection.cc:204-306 | in every such run, which may be one whose conditions are on events alone, a connection that a step destroys was dead and cleaned up, and no worker, client or running job refers to it before or after |
| Joint.KnownAreReachable | libgearman-server/packet.cc:140-207 | the connection of every worker and client the scheduler knows exists and was not cleaned up, so that a packet can be queued for it |
| Packets.Packet.CreateArg | libgearman-server/packet.cc:297-365 | each argument is behind the ones before it and its pointer points at it, through every move from the inline buffer to the heap and on; then the payload; then too many arguments, and nothing changes |
| Packets.Packet.PackHeader | libgearman-server/packet.cc:410-468 | when packing succeeds the header reads back as the magic, the command and the length, and right behind it are the arguments; it fails exactly for a bad command or a length of 2^32 - 1 or more |
| Packets.Packet.UnpackArgs | libgearman-server/plugins/protocol/gear/protocol.cc:180-222 | the loop takes as many arguments from the bytes at hand as are complete, and says how many bytes it used |
| Packets.Transmit | libgearman-server/packet.cc:297-468 | arguments added one by one, a header packed, and the bytes unpacked from a stream in which anything may follow: what arrives has the magic, command, arguments and payload size that were given |
| Framing.PacketRoundTrip | libgearman-server/plugins/protocol/gear/protocol.cc:111-222 | a packed packet at the front of any stream is read back as it was given: header, arguments, size of the payload |
| Framing.ParseSound | libgearman-server/plugins/protocol/gear/protocol.cc:180-222 | whatever is read successfully is well formed and is what the stream starts with |
| Framing.NetworkOrder | libgearman-server/packet.cc:410-468 | command and length are on the wire with the most significant byte first |
| Framing.Resumes | libgearman-server/plugins/protocol/gear/protocol.cc:111-222 | bytes that come in pieces, split anywhere, are read as if they had come at once |

## Left out

- Steps.StepInv: a job timeout that fires while its job waits in the FIFO is excluded by `Allowed`, because the step then breaks the invariant; `Limits.TimeoutPlaces` gives the exact condition, and `Guarantees.Orderly` conditions on the events that rule it out.
- Guarantees.OneEnding: assumes that no job with clients is canceled and that no result is lost to a failing persistent queue, as the source gives no more; `Endings.CancelTraced` and `Endings.ResultTraced` show that these conditions are exact.
- Guarantees.TimeoutRuns: assumes that no timeout of a dead connection fires; `Stale.FiredTimers` gives the exact condition for a single timeout.
- Guarantees.NobodyOversleeps: is about `worker_wakeup` 0, as any other value wakes only so many workers on purpose, and about connections that were sent no NOOP since they last asked for a job; `Naps.QueueTells` and `Naps.SleepsDeaf` show that the others are not woken.
- Attendance.NobodyForgotten: its condition on PRE_SLEEP is exact for lists of workers that do not turn (`Losses.PeekLoses`); for lists that do it is sufficient, and also excludes ignored jobs of equal priority, where which job is discarded depends on whose turn it is.
- Peeking.PeekDiscards: its if-and-only-if is about connections whose list of workers does not turn, that is, without round robin or with one worker; `Turning.TurnsDiscard` gives a sufficient condition for those whose list does.
- Hanging.SleepHangs: its if-and-only-if is about connections for which no job is wanted, that of `Hanging.SleepHangsBelow` about those for which nothing is due as high as jobs that are not; in between, `Hanging.SleepBlocked` is sufficient and `Hanging.SleepEnabled` necessary, as the outcome depends on how the list has turned by the time.
- Server.Server.Perform: the tables are one record that is updated piece by piece; links between entries are modelled in `JobFifo` and `WorkerLinks`, for the lists with the most intricate code.
- Server.Server.AddJob: leaves out reducers, and the two allocation failures that undo a job.
- PacketFlow.PacketsAccounted: is about connections that are there at the end; packets of a connection that dies before they are run may go with it. Packets are counted, not told apart.
- Answers.ResultAnswers: what a WORK packet carries beside its kind and its job, the payload, is not modelled.
- Requeues.TimeoutFate: the persistent queue is taken not to fail when a job is dropped; the source logs a failure there and goes on.
- Packets.Packet.CreateArg: arguments are byte sequences; a null payload pointer, which leaves room for another, is not modelled.
- Packets.Packet.UnpackArgs: the text protocol in the same function is not modelled.
- The functions without a contract (`Scheduler`, `Selection`, `Commands`) are the definitions that the rows are about.
- Sockets, TLS, libevent, pipes, signals, start-up and option parsing: input and output only; a script of answers stands for the socket.
- Timer callbacks are steps of their own; that they run in another thread than the one they interrupt is not modelled.
- Memory is sequentially consistent; accesses to flags outside locks are atomic steps.
- `gearman_server_con_to_be_freed_add` reads the connection's thread after its lock region; the model reads it inside.
- Shutdown: it frees jobs without unlinking them, and the invariant is not meant to hold then.
- `drop function`, `maxqueue` parsing, `status` formatting and the other text commands, except for the figures that `status` shows.
- A timeout whose job no longer exists is taken as one that does nothing.
- WORK_STATUS keeps no numerator and denominator, SET_CLIENT_ID and GET_STATUS answer nothing that the properties speak of.
- Free lists of records, allocation failures and the ownership of payload memory.
- The back ends of the persistent queue: a set of keys stands for them.
- The client library, the command line tools and the benchmark.
