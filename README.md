# speedtest: a verified model of the measurement script

The script `src/app.js` runs once. It makes sure the InfluxDB database
`speedtest_db` exists, runs one internet speed test through the external
`speedtest-net` probe, and writes the result as three tagged points: `ping`,
`download` and `upload`. A failed probe call is retried from scratch while a
module-level counter `retries` is below `maxRetries = 3`. Once the budget is
spent, the script logs fatal and saves nothing. If the datastore rejects the
write, the script logs it on the console and carries on.

The model has five modules:

- `Schema` (`schema.dfy`) covers the data:
  - the result record of the probe;
  - the point handed to the datastore;
  - the schema declared for the three measurements;
  - the database name.
- `Writer` (`writer.dfy`) covers the result-to-points mapping:
  - `ToPoints`, the payload of the one `writePoints` call;
  - `FromPoints`, its inverse, which reads back what the points carry.
- `Runner` (`runner.dfy`) models the retry-driven runner as a pure function
  `Run` of three inputs:
  - the counter at the start;
  - the sequence of outcomes that successive probe calls settle to;
  - whether the datastore accepts the write.

  `Run` returns the trace of observable events and the final counter. The
  events are the start log of each attempt (with its retry number), each probe
  call, the success log, the write, the console error, the error log of a
  retried failure and the fatal log. When the outcomes run out, the pending
  probe call never settles and the trace ends there.
- `Bootstrap` (`bootstrap.dfy`) covers the bootstrap: list the databases,
  create `speedtest_db` if it is not listed, then start the runner. A failure
  of either datastore call leads to one error log and no run.
- `App` (`app.dfy`) is the script as a running program: a class `Script`
  holding the mutable counter and the trace so far.
  - `Attempt` is one invocation of `runSpeedTest`.
  - `RunSpeedTest` is a loop over attempts. The loop stands for the
    re-invocation at line 136, since only one attempt is ever in flight.
  - `Start` runs the bootstrap.

  Each method is proved against `Run`, or against `Process` for `Start`, and
  the properties are proved about those functions.

The counting properties use `Count(t, k)`, the number of events of kind `k`
in a trace. The kinds are probe calls, retried failures, writes, fatal logs,
database creations and bootstrap errors. `Counters(t)` is the sequence of
retry numbers the attempts log.

Two details of the code fix what the model records:

- The success log names the test by `res.result.id` (line 110).
- Only a retried failure logs an error (lines 133-134). The failure that
  spends the budget logs fatal only (lines 137-138).

## Model

| member | source | states |
|---|---|---|
| Writer.ToPoints | src/app.js:112-127 | No contract of its own: the batch of the one `writePoints` call. Its properties are the Writer rows below. |
| Writer.PointsFitSchema | src/app.js:112-127 | The batch is exactly three points: ping, download and upload, in that order. Each point fits its entry of the declared schema: same measurement, exactly the declared field keys with the declared types, exactly the declared tag keys. |
| Writer.PointsShareTags | src/app.js:115-125 | All three points carry the same tag object. Its keys are exactly location, country, host and isp, and its values are the server's location, country and host and the client's ISP. |
| Writer.RoundTrip | src/app.js:116-126 | Decoding the written points gives back the server, the ISP, the ping jitter and latency, the top-level packet loss, and both transfer records unchanged. |
| Writer.PointsDetermineReading | src/app.js:112-127 | Two results give the same batch if and only if they agree on everything the points carry, that is, everything but the test identification. |
| Writer.SchemaBatchIsEncoding | src/app.js:24-67 | Conversely, a decodable batch whose three points fit the schema is exactly the batch the writer produces for what it decodes to. |
| Writer.WorkedExample | src/app.js:112-127 | One concrete result maps to the three concrete points, with every tag and field value. |
| Runner.Run | src/app.js:104-141 | A run never lowers the counter and never takes it past `maxRetries` when it starts within the budget. It raises the counter by at most the number of outcomes in the input; `RunBounds` gives the exact rise. |
| Runner.FailedAttempts | src/app.js:132-136 | `n` leading failures within the budget give `n` failed attempts numbered from the starting counter up. They are followed by a fresh run from the counter plus `n`, which also gives the final counter. |
| Runner.RunBounds | src/app.js:104-141 | Any run from within the budget makes between 1 and `maxRetries + 1 - retries` probe calls. It has one more probe call than retried failures and as many retried failures as the counter rose. It writes or logs fatal at most once in total. |
| Runner.AllAttemptsFail | src/app.js:132-139 | If every budgeted attempt fails, the trace is the failed attempts followed by a last attempt that ends in the one fatal log. The run makes the budgeted number of probe calls, writes nothing, logs fatal exactly once and leaves the counter at its maximum. |
| Runner.FreshRunAllFail | src/app.js:12-16 | From the initial counter 0, a probe that always fails is called exactly 4 times. There are 3 retried failures, no write, and one fatal log, which is the last event. |
| Runner.FailuresThenSuccess | src/app.js:108-136 | After `n` failures within the budget and then a success: `n` failed attempts, then the attempt that delivers, so `n + 1` probe calls. There is exactly one write, whose payload is `ToPoints` of the successful result, no fatal log, and a final counter of `retries + n`. |
| Runner.ProbeNeverSettles | src/app.js:108 | If the outcomes run out within the budget, all of them failures, the run is the failed attempts followed by a start log and a probe call that never settles. |
| Runner.RunOutcomes | src/app.js:108-140 | A run logs fatal if and only if all budgeted attempts fail. It writes if and only if some budgeted attempt succeeds after failures only. |
| Runner.CountersConsecutive | src/app.js:105-107 | The attempts log the retry numbers `retries, retries + 1, ...` up to the final counter. The counter is never reset and rises by exactly one per retry. |
| Runner.CountersWithinBudget | src/app.js:133-135 | Every retry number logged by a run from within the budget lies between the starting counter and `maxRetries`. |
| Runner.WriteFailureSwallowed | src/app.js:128-130 | When the promise of the `writePoints` call rejects, the run equals the run against an accepting datastore with the console error added after the write. The counter is the same. |
| Runner.WriteFailureKeepsCounts | src/app.js:128-130 | A rejected write changes no count: the same probe calls, retried failures, writes and fatal logs. |
| Runner.RunOutsideBootstrap | src/app.js:94-98 | The runner never creates a database and never produces the bootstrap's error log. Its failures do not reach the bootstrap's error handler. |
| Runner.CountStep | src/app.js:104-141 | Each of the four ways an attempt ends (pending, success, retried failure, fatal failure) adds exactly its own events to the counts. |
| Bootstrap.Process | src/app.js:88-99 | No contract of its own: the trace of the listing, the creation when the name is absent, and then the run from counter 0 or the bootstrap error. Its properties are CreatesIffAbsent and RunStartsIff. |
| Bootstrap.CreatesIffAbsent | src/app.js:88-93 | The process lists the databases first. It creates `speedtest_db` exactly once if the listing succeeded and did not name it, and never otherwise. The creation is the second event, before any probe call. |
| Bootstrap.RunStartsIff | src/app.js:88-99 | The runner starts from counter 0 if and only if the listing succeeded and the database was listed or created. The trace then ends with that run, and there is no bootstrap error log. Otherwise the process ends with exactly one bootstrap error log and no probe call. |
| App.Script.constructor | src/app.js:16 | The script starts with the counter at 0 and an empty trace. |
| App.Script.Attempt | src/app.js:104-140 | One invocation logs its start and calls the probe. A settled run leaves the trace extended by the rest of `Run` and the counter unchanged. Otherwise the failure was retried: the trace grows by one failed attempt and the counter by exactly one. |
| App.Script.RunSpeedTest | src/app.js:104-141 | The loop of attempts extends the trace by exactly `Run(old counter, outcomes)` and sets the counter to that run's final counter, keeping it within `maxRetries`. |
| App.Script.Start | src/app.js:88-99 | From the script as loaded, the bootstrap and the run it starts produce exactly `Process(listing, creation outcome, outcomes)`. The counter ends at the final counter of `Run` from 0 when the run starts, and stays at 0 when the bootstrap fails. |

## Left out

- The speed-test probe (`speedtest-net`, lines 9 and 108) is an oracle. The outcomes of successive calls are an input sequence, and an error is opaque: every failure is handled the same way.
- The calls of the InfluxDB client (line 8) are oracles. The schema it is constructed with (lines 24-67) is modelled as `Schema.Measurements`:
  - `getDatabaseNames` is an input listing or a failure;
  - `createDatabase` and `writePoints` are recorded events with a boolean outcome;
  - the connection settings (host and default database, lines 22-23) are not modelled.
- Log messages keep only their kind. The model drops the text, the elapsed seconds and the wall clock (lines 105-107, 110, 134 and 138), and the log4js configuration (lines 73-83).
- The retry suffix of the start log appears only when the counter is positive. The model records the retry number in every start event instead.
- Promises and `async` are not modelled. Execution is sequential:
  - the non-awaited re-invocation at line 136 is the next loop iteration;
  - the non-awaited write at line 112 counts as settled before the run ends, so its console error directly follows the write event.
- Field values are not typed as Influx types. FLOAT values are reals and INTEGER values are unbounded integers, copied and never computed. Any coercion or range check of the InfluxDB client is not modelled.
- Measurement, tag and field names are enumerations, not strings. The database name stays a string, because the bootstrap tests string membership in the listed names.
- Transfer records have exactly the three fields of the schema. Any further key that `res.download` or `res.upload` might carry, and that `fields: res.download` would pass along, is not modelled.
- An exception thrown inside the success handler is not modelled. Such an exception, for instance from a result without `server` or `result`, would reach the `.catch` at line 132 and be retried like a probe failure. The model's result records always have every field.
- Runner.WriteFailureSwallowed covers only a write whose returned promise rejects (lines 128-130). If the `influx.writePoints` call at line 112 threw synchronously instead, for instance on a field the schema does not declare, the exception would reach the `.catch` at line 132 and be retried like a probe failure. That path is not modelled.
- Runner.RunOutcomes: the hang case is stated only by elimination. The run neither writes nor logs fatal exactly when neither condition holds. Runner.ProbeNeverSettles gives its shape when all outcomes are failures.
- The process is modelled for one start of the script. The counter is never reset because the script never resets it, and a second start is not modelled.
