// The measurement runner: one attempt is a probe call that either delivers a
// result (which is then written) or fails; a failure is retried while the
// retry budget lasts and is otherwise terminal. The probe and the datastore
// are oracles: the outcomes of successive probe calls are an input sequence,
// and whether the datastore accepts the batch is an input flag.
module Runner {
  import opened Schema
  import Writer

  /** The retry budget: at most this many re-attempts after the first one. */
  const MaxRetries: nat := 3

  /** What one call of the external probe settles to. The error itself is
      opaque: every kind of failure is treated the same. */
  datatype Outcome = Success(res: SpeedTestResult) | Failure

  /** The observable events of a process run, in order: calls into the
      datastore and the probe, and log entries by kind. */
  datatype Event =
    | ListDatabases                 // getDatabaseNames()
    | CreateDatabase(name: string)  // createDatabase(name)
    | BootstrapError                // error log: the database could not be listed or created
    | Running(retry: nat)           // info log at the start of an attempt, naming the retry number
    | ProbeCall                     // one call of the external speed-test probe
    | Finished(id: string)          // info log of a successful attempt, naming the test id
    | WritePoints(points: seq<Point>) // the one batched write of a successful run
    | WriteError                    // console error: the datastore rejected the batch
    | AttemptError                  // error log of a failed attempt that is retried
    | Fatal                         // fatal log: the retry budget is spent, nothing saved

  /** The trace of a run together with the final value of the retry counter. */
  datatype RunState = RunState(trace: seq<Event>, retries: nat)

  /** The events of a delivered measurement: its info log, the write of its
      three points and, if the datastore rejects them, the console error. */
  function Delivered(res: SpeedTestResult, writeOk: bool): seq<Event>
  {
    [Finished(res.result.id), WritePoints(Writer.ToPoints(res))] + (if writeOk then [] else [WriteError])
  }

  /** The runner started with the counter at `retries`, facing the probe
      outcomes `probe` in order. When the outcomes run out, the pending probe
      call never settles and nothing more happens. */
  function Run(retries: nat, probe: seq<Outcome>, writeOk: bool): (s: RunState)
    ensures retries <= s.retries
    ensures retries <= MaxRetries ==> s.retries <= MaxRetries
    ensures s.retries - retries <= |probe|
    decreases |probe|
  {
    var start := [Running(retries), ProbeCall];
    if |probe| == 0 then RunState(start, retries)
    else match probe[0]
      case Success(res) => RunState(start + Delivered(res, writeOk), retries)
      case Failure =>
        if retries < MaxRetries then
          var rest := Run(retries + 1, probe[1..], writeOk);
          RunState(start + [AttemptError] + rest.trace, rest.retries)
        else RunState(start + [Fatal], retries)
  }

  // ---------------------------------------------------------------------
  // Observing traces
  // ---------------------------------------------------------------------

  /** The kinds of event the properties of a process run count. */
  datatype Kind = ProbeCalls | RetriedFailures | Writes | FatalLogs | Creates | BootstrapErrors

  predicate IsKind(e: Event, k: Kind)
  {
    match k
    case ProbeCalls => e.ProbeCall?
    case RetriedFailures => e.AttemptError?
    case Writes => e.WritePoints?
    case FatalLogs => e.Fatal?
    case Creates => e.CreateDatabase?
    case BootstrapErrors => e.BootstrapError?
  }

  /** How many events of kind `k` the trace `t` holds. */
  function Count(t: seq<Event>, k: Kind): nat
  {
    if t == [] then 0 else (if IsKind(t[0], k) then 1 else 0) + Count(t[1..], k)
  }

  lemma {:induction false} CountAppend(a: seq<Event>, b: seq<Event>, k: Kind)
    ensures Count(a + b, k) == Count(a, k) + Count(b, k)
  {
    if a == [] {
      assert a + b == b;
    } else {
      assert (a + b)[0] == a[0];
      assert (a + b)[1..] == a[1..] + b;
      CountAppend(a[1..], b, k);
    }
  }

  lemma CountSingle(e: Event, k: Kind)
    ensures Count([e], k) == if IsKind(e, k) then 1 else 0
  {
    assert [e][1..] == [];
  }

  lemma CountPair(e: Event, f: Event, k: Kind)
    ensures Count([e, f], k) == Count([e], k) + Count([f], k)
  {
    assert [e, f] == [e] + [f];
    CountAppend([e], [f], k);
  }

  /** The opening of an attempt holds one probe call and nothing else counted. */
  lemma CountStart(retries: nat, k: Kind)
    ensures Count([Running(retries), ProbeCall], k) == if k == ProbeCalls then 1 else 0
  {
    CountPair(Running(retries), ProbeCall, k);
    CountSingle(Running(retries), k);
    CountSingle(ProbeCall, k);
  }

  /** A delivered measurement holds one write and nothing else counted. */
  lemma CountDelivered(res: SpeedTestResult, writeOk: bool, k: Kind)
    ensures Count(Delivered(res, writeOk), k) == if k == Writes then 1 else 0
  {
    var pair := [Finished(res.result.id), WritePoints(Writer.ToPoints(res))];
    var tail: seq<Event> := if writeOk then [] else [WriteError];
    CountPair(pair[0], pair[1], k);
    CountSingle(pair[0], k);
    CountSingle(pair[1], k);
    CountSingle(WriteError, k);
    CountAppend(pair, tail, k);
  }

  /** What one attempt contributes to the counts, in each of the four ways it
      can end. */
  lemma CountStep(retries: nat, probe: seq<Outcome>, writeOk: bool, k: Kind)
    ensures var c := Count(Run(retries, probe, writeOk).trace, k);
      if |probe| == 0 then c == (if k == ProbeCalls then 1 else 0)
      else if probe[0].Success? then c == (if k == ProbeCalls || k == Writes then 1 else 0)
      else if retries < MaxRetries then
        c == (if k == ProbeCalls || k == RetriedFailures then 1 else 0)
             + Count(Run(retries + 1, probe[1..], writeOk).trace, k)
      else c == (if k == ProbeCalls || k == FatalLogs then 1 else 0)
  {
    var t := Run(retries, probe, writeOk).trace;
    var start := [Running(retries), ProbeCall];
    CountStart(retries, k);
    if |probe| == 0 {
      assert t == start;
    } else if probe[0].Success? {
      var res := probe[0].res;
      CountDelivered(res, writeOk, k);
      assert t == start + Delivered(res, writeOk);
      CountAppend(start, Delivered(res, writeOk), k);
    } else if retries < MaxRetries {
      var rest := Run(retries + 1, probe[1..], writeOk).trace;
      CountSingle(AttemptError, k);
      CountAppend(start, [AttemptError], k);
      assert t == (start + [AttemptError]) + rest;
      CountAppend(start + [AttemptError], rest, k);
    } else {
      CountSingle(Fatal, k);
      assert t == start + [Fatal];
      CountAppend(start, [Fatal], k);
    }
  }

  /** The retry numbers the attempts of `t` log at their start, in order. */
  function Counters(t: seq<Event>): seq<nat>
  {
    if t == [] then []
    else (if t[0].Running? then [t[0].retry] else []) + Counters(t[1..])
  }

  lemma {:induction false} CountersAppend(a: seq<Event>, b: seq<Event>)
    ensures Counters(a + b) == Counters(a) + Counters(b)
  {
    if a == [] {
      assert a + b == b;
    } else {
      var head: seq<nat> := if a[0].Running? then [a[0].retry] else [];
      assert (a + b)[0] == a[0];
      assert (a + b)[1..] == a[1..] + b;
      CountersAppend(a[1..], b);
      calc {
        Counters(a + b);
        head + Counters(a[1..] + b);
        head + (Counters(a[1..]) + Counters(b));
        (head + Counters(a[1..])) + Counters(b);
        Counters(a) + Counters(b);
      }
    }
  }

  /** Number of probe calls the budget allows from counter value `retries`. */
  function Budget(retries: nat): nat
    requires retries <= MaxRetries
  {
    MaxRetries + 1 - retries
  }

  /** The first `n` probe outcomes are failures. */
  predicate FailsFirst(probe: seq<Outcome>, n: nat)
  {
    n <= |probe| && forall i :: 0 <= i < n ==> probe[i].Failure?
  }

  lemma FailsFirstShift(probe: seq<Outcome>, n: nat)
    requires 0 < n && |probe| > 0 && probe[0].Failure?
    ensures FailsFirst(probe, n) <==> FailsFirst(probe[1..], n - 1)
  {
    if FailsFirst(probe[1..], n - 1) {
      assert forall i :: 1 <= i < n ==> probe[i] == probe[1..][i - 1];
    }
  }

  /** The consecutive numbers lo, lo+1, ..., hi-1. */
  function Range(lo: nat, hi: nat): (s: seq<nat>)
    requires lo <= hi
    ensures |s| == hi - lo
    ensures forall k :: 0 <= k < |s| ==> s[k] == lo + k
    decreases hi - lo
  {
    if lo == hi then [] else [lo] + Range(lo + 1, hi)
  }

  // ---------------------------------------------------------------------

  /** The trace of `n` failed attempts with the counter at `retries`,
      `retries + 1`, ...: each logs its start, calls the probe and logs the
      error of the failure it retries. */
  function Attempts(retries: nat, n: nat): seq<Event>
    decreases n
  {
    if n == 0 then [] else [Running(retries), ProbeCall, AttemptError] + Attempts(retries + 1, n - 1)
  }

  lemma {:induction false} CountAttempts(retries: nat, n: nat, k: Kind)
    ensures Count(Attempts(retries, n), k) == if k == ProbeCalls || k == RetriedFailures then n else 0
    decreases n
  {
    if n > 0 {
      var head := [Running(retries), ProbeCall, AttemptError];
      assert head == [Running(retries), ProbeCall] + [AttemptError];
      CountStart(retries, k);
      CountSingle(AttemptError, k);
      CountAppend([Running(retries), ProbeCall], [AttemptError], k);
      CountAttempts(retries + 1, n - 1, k);
      CountAppend(head, Attempts(retries + 1, n - 1), k);
    }
  }

  // ---------------------------------------------------------------------
  // Properties of the runner
  // ---------------------------------------------------------------------

  /** A failure within the budget is one failed attempt followed by a fresh
      run from the raised counter. */
  lemma RetryStep(retries: nat, probe: seq<Outcome>, writeOk: bool)
    requires retries < MaxRetries && |probe| > 0 && probe[0].Failure?
    ensures Run(retries, probe, writeOk).trace
            == Attempts(retries, 1) + Run(retries + 1, probe[1..], writeOk).trace
    ensures Run(retries, probe, writeOk).retries == Run(retries + 1, probe[1..], writeOk).retries
  {
    assert Attempts(retries, 1) == [Running(retries), ProbeCall] + [AttemptError];
  }

  lemma AttemptsChain(retries: nat, n: nat, x: seq<Event>, y: seq<Event>, z: seq<Event>)
    requires n > 0
    requires x == Attempts(retries, 1) + y && y == Attempts(retries + 1, n - 1) + z
    ensures x == Attempts(retries, n) + z
  {
    assert Attempts(retries, 1) == [Running(retries), ProbeCall, AttemptError] + [];
    assert Attempts(retries, n) == Attempts(retries, 1) + Attempts(retries + 1, n - 1);
  }

  lemma DropAfterHead(probe: seq<Outcome>, n: nat)
    requires 0 < n <= |probe|
    ensures probe[1..][n - 1..] == probe[n..]
  {
  }

  /** While the budget lasts, `n` leading failures each cost one attempt and
      raise the counter by one, and the run goes on as a fresh run from the
      raised counter. */
  lemma {:induction false} FailedAttempts(retries: nat, n: nat, probe: seq<Outcome>, writeOk: bool)
    requires retries + n <= MaxRetries
    requires FailsFirst(probe, n)
    ensures Run(retries, probe, writeOk).trace
            == Attempts(retries, n) + Run(retries + n, probe[n..], writeOk).trace
    ensures Run(retries, probe, writeOk).retries == Run(retries + n, probe[n..], writeOk).retries
    decreases n
  {
    if n == 0 {
      assert probe[0..] == probe;
    } else {
      var whole := Run(retries, probe, writeOk);
      var next := Run(retries + 1, probe[1..], writeOk);
      var last := Run(retries + n, probe[n..], writeOk);
      assert whole.trace == Attempts(retries, 1) + next.trace && whole.retries == next.retries by {
        RetryStep(retries, probe, writeOk);
      }
      assert next.trace == Attempts(retries + 1, n - 1) + last.trace && next.retries == last.retries by {
        FailsFirstShift(probe, n);
        FailedAttempts(retries + 1, n - 1, probe[1..], writeOk);
        DropAfterHead(probe, n);
      }
      AttemptsChain(retries, n, whole.trace, next.trace, last.trace);
    }
  }

  /** Bounds of any run: at least one and at most the budgeted number of probe
      calls, one more probe call than retried failures, as many retried
      failures as the counter rose, and never more than one of a write and a
      fatal log. */
  lemma {:induction false} RunBounds(retries: nat, probe: seq<Outcome>, writeOk: bool)
    requires retries <= MaxRetries
    ensures var s := Run(retries, probe, writeOk);
      && 1 <= Count(s.trace, ProbeCalls) <= Budget(retries)
      && Count(s.trace, ProbeCalls) == Count(s.trace, RetriedFailures) + 1
      && Count(s.trace, RetriedFailures) == s.retries - retries
      && Count(s.trace, Writes) + Count(s.trace, FatalLogs) <= 1
    decreases |probe|
  {
    CountStep(retries, probe, writeOk, ProbeCalls);
    CountStep(retries, probe, writeOk, RetriedFailures);
    CountStep(retries, probe, writeOk, Writes);
    CountStep(retries, probe, writeOk, FatalLogs);
    if |probe| > 0 && probe[0].Failure? && retries < MaxRetries {
      RunBounds(retries + 1, probe[1..], writeOk);
    }
  }

  /** Failed attempts followed by the rest of a trace: one probe call and one
      retried failure per attempt on top of the rest. */
  lemma CountAfterAttempts(retries: nat, n: nat, t: seq<Event>, rest: seq<Event>, k: Kind)
    requires t == Attempts(retries, n) + rest
    ensures Count(t, k) == (if k == ProbeCalls || k == RetriedFailures then n else 0) + Count(rest, k)
  {
    CountAppend(Attempts(retries, n), rest, k);
    CountAttempts(retries, n, k);
  }

  /** With no outcome left the probe call of the attempt never settles. */
  lemma PendingEnds(retries: nat, writeOk: bool)
    ensures Run(retries, [], writeOk) == RunState([Running(retries), ProbeCall], retries)
  {
  }

  /** A success ends the run with its delivery. */
  lemma SuccessEnds(retries: nat, probe: seq<Outcome>, writeOk: bool)
    requires |probe| > 0 && probe[0].Success?
    ensures Run(retries, probe, writeOk)
            == RunState([Running(retries), ProbeCall] + Delivered(probe[0].res, writeOk), retries)
  {
  }

  /** A failure with the budget spent ends the run with the fatal log. */
  lemma FailureEnds(probe: seq<Outcome>, writeOk: bool)
    requires |probe| > 0 && probe[0].Failure?
    ensures Run(MaxRetries, probe, writeOk) == RunState([Running(MaxRetries), ProbeCall, Fatal], MaxRetries)
  {
    assert [Running(MaxRetries), ProbeCall] + [Fatal] == [Running(MaxRetries), ProbeCall, Fatal];
  }

  /** When every budgeted attempt fails: the budgeted number of probe calls
      (four from a fresh counter), each failure but the last retried, one
      fatal log at the very end, no write, and the counter at its maximum. */
  lemma AllAttemptsFail(retries: nat, probe: seq<Outcome>, writeOk: bool)
    requires retries <= MaxRetries
    requires FailsFirst(probe, Budget(retries))
    ensures var s := Run(retries, probe, writeOk);
      && s.trace == Attempts(retries, MaxRetries - retries) + [Running(MaxRetries), ProbeCall, Fatal]
      && s.retries == MaxRetries
      && Count(s.trace, ProbeCalls) == Budget(retries)
      && Count(s.trace, Writes) == 0
      && Count(s.trace, FatalLogs) == 1
  {
    var s := Run(retries, probe, writeOk);
    var n := MaxRetries - retries;
    var last := [Running(MaxRetries), ProbeCall, Fatal];
    assert s.trace == Attempts(retries, n) + last && s.retries == MaxRetries by {
      FailedAttempts(retries, n, probe, writeOk);
      assert probe[n..][0] == probe[n];
      FailureEnds(probe[n..], writeOk);
    }
    CountStart(MaxRetries, ProbeCalls);
    CountStart(MaxRetries, Writes);
    CountStart(MaxRetries, FatalLogs);
    CountSingle(Fatal, ProbeCalls);
    CountSingle(Fatal, Writes);
    CountSingle(Fatal, FatalLogs);
    assert last == [Running(MaxRetries), ProbeCall] + [Fatal];
    CountAppend([Running(MaxRetries), ProbeCall], [Fatal], ProbeCalls);
    CountAppend([Running(MaxRetries), ProbeCall], [Fatal], Writes);
    CountAppend([Running(MaxRetries), ProbeCall], [Fatal], FatalLogs);
    CountAfterAttempts(retries, n, s.trace, last, ProbeCalls);
    CountAfterAttempts(retries, n, s.trace, last, Writes);
    CountAfterAttempts(retries, n, s.trace, last, FatalLogs);
  }

  /** From the fresh counter of the script, a probe that always fails is
      called exactly four times, nothing is written and fatal is logged once. */
  lemma FreshRunAllFail(probe: seq<Outcome>, writeOk: bool)
    requires FailsFirst(probe, MaxRetries + 1)
    ensures var t := Run(0, probe, writeOk).trace;
      && Count(t, ProbeCalls) == 4
      && Count(t, RetriedFailures) == 3
      && Count(t, Writes) == 0
      && Count(t, FatalLogs) == 1
      && t[|t| - 1] == Fatal
  {
    AllAttemptsFail(0, probe, writeOk);
    RunBounds(0, probe, writeOk);
  }

  /** When `n` failures within the budget are followed by a success: `n + 1`
      probe calls, the last attempt delivering that success, so exactly one
      write, of the points of the successful result, and no fatal log. */
  lemma FailuresThenSuccess(retries: nat, n: nat, probe: seq<Outcome>, writeOk: bool)
    requires retries + n <= MaxRetries
    requires FailsFirst(probe, n) && n < |probe| && probe[n].Success?
    ensures var s := Run(retries, probe, writeOk);
      && s.trace == Attempts(retries, n) + [Running(retries + n), ProbeCall]
                    + Delivered(probe[n].res, writeOk)
      && s.retries == retries + n
      && Count(s.trace, ProbeCalls) == n + 1
      && Count(s.trace, Writes) == 1
      && WritePoints(Writer.ToPoints(probe[n].res)) in s.trace
      && Count(s.trace, FatalLogs) == 0
  {
    var s := Run(retries, probe, writeOk);
    var start := [Running(retries + n), ProbeCall];
    var d := Delivered(probe[n].res, writeOk);
    var a := Attempts(retries, n);
    assert s.trace == a + (start + d) && s.retries == retries + n by {
      FailedAttempts(retries, n, probe, writeOk);
      assert probe[n..][0] == probe[n];
      SuccessEnds(retries + n, probe[n..], writeOk);
    }
    assert s.trace == a + start + d;
    assert s.trace[|a| + 3] == d[1];
    CountStart(retries + n, ProbeCalls);
    CountStart(retries + n, Writes);
    CountStart(retries + n, FatalLogs);
    CountDelivered(probe[n].res, writeOk, ProbeCalls);
    CountDelivered(probe[n].res, writeOk, Writes);
    CountDelivered(probe[n].res, writeOk, FatalLogs);
    CountAppend(start, d, ProbeCalls);
    CountAppend(start, d, Writes);
    CountAppend(start, d, FatalLogs);
    CountAfterAttempts(retries, n, s.trace, start + d, ProbeCalls);
    CountAfterAttempts(retries, n, s.trace, start + d, Writes);
    CountAfterAttempts(retries, n, s.trace, start + d, FatalLogs);
  }

  /** When the outcomes run out within the budget, all of them failures, the
      last attempt is left waiting on its probe call: no write, no fatal log. */
  lemma ProbeNeverSettles(retries: nat, probe: seq<Outcome>, writeOk: bool)
    requires retries + |probe| <= MaxRetries
    requires FailsFirst(probe, |probe|)
    ensures var s := Run(retries, probe, writeOk);
      && s.trace == Attempts(retries, |probe|) + [Running(retries + |probe|), ProbeCall]
      && s.retries == retries + |probe|
  {
    FailedAttempts(retries, |probe|, probe, writeOk);
    assert probe[|probe|..] == [];
  }

  /** Some attempt among the first `b` succeeds, every earlier one failing. */
  predicate SucceedsWithin(probe: seq<Outcome>, b: nat)
  {
    exists n :: 0 <= n < b && n < |probe| && FailsFirst(probe, n) && probe[n].Success?
  }

  lemma SucceedsShift(probe: seq<Outcome>, b: nat)
    requires 0 < b && |probe| > 0 && probe[0].Failure?
    ensures SucceedsWithin(probe, b) <==> SucceedsWithin(probe[1..], b - 1)
  {
    if SucceedsWithin(probe, b) {
      var n :| 0 <= n < b && n < |probe| && FailsFirst(probe, n) && probe[n].Success?;
      assert n > 0;
      FailsFirstShift(probe, n);
      assert probe[1..][n - 1] == probe[n];
    }
    if SucceedsWithin(probe[1..], b - 1) {
      var m :| 0 <= m < b - 1 && m < |probe[1..]| && FailsFirst(probe[1..], m) && probe[1..][m].Success?;
      FailsFirstShift(probe, m + 1);
      assert probe[m + 1] == probe[1..][m];
    }
  }

  /** How a run ends is decided by the outcomes alone: it logs fatal exactly
      when all budgeted attempts fail, and it writes exactly when one of them
      succeeds after failures only. When neither holds the outcomes ran out
      and the last probe call never settles. */
  lemma {:induction false} RunOutcomes(retries: nat, probe: seq<Outcome>, writeOk: bool)
    requires retries <= MaxRetries
    ensures var t := Run(retries, probe, writeOk).trace;
      && (Count(t, FatalLogs) > 0 <==> FailsFirst(probe, Budget(retries)))
      && (Count(t, Writes) > 0 <==> SucceedsWithin(probe, Budget(retries)))
    decreases |probe|
  {
    CountStep(retries, probe, writeOk, FatalLogs);
    CountStep(retries, probe, writeOk, Writes);
    if |probe| == 0 {
    } else if probe[0].Success? {
      assert FailsFirst(probe, 0);
    } else if retries < MaxRetries {
      RunOutcomes(retries + 1, probe[1..], writeOk);
      FailsFirstShift(probe, Budget(retries));
      SucceedsShift(probe, Budget(retries));
    } else {
      assert Budget(retries) == 1;
    }
  }

  lemma CountersOfStart(retries: nat)
    ensures Counters([Running(retries), ProbeCall]) == [retries]
  {
    assert [Running(retries), ProbeCall][1..] == [ProbeCall];
    assert [ProbeCall][1..] == [];
  }

  lemma CountersOfDelivered(res: SpeedTestResult, writeOk: bool)
    ensures Counters(Delivered(res, writeOk)) == []
  {
    var pair := [Finished(res.result.id), WritePoints(Writer.ToPoints(res))];
    var tail: seq<Event> := if writeOk then [] else [WriteError];
    assert pair[1..][1..] == [];
    CountersOfSingle(WriteError);
    CountersAppend(pair, tail);
  }

  lemma CountersOfSingle(e: Event)
    requires !e.Running?
    ensures Counters([e]) == []
  {
    assert [e][1..] == [];
  }

  lemma CountersOfAttempt(retries: nat)
    ensures Counters(Attempts(retries, 1)) == [retries]
  {
    assert Attempts(retries, 1) == [Running(retries), ProbeCall] + [AttemptError];
    CountersOfStart(retries);
    CountersOfSingle(AttemptError);
    CountersAppend([Running(retries), ProbeCall], [AttemptError]);
  }

  /** The attempts of a run log the consecutive retry numbers from the
      starting counter up to the final one: the counter is never reset and
      rises by exactly one per retry. */
  lemma {:induction false} CountersConsecutive(retries: nat, probe: seq<Outcome>, writeOk: bool)
    ensures var s := Run(retries, probe, writeOk);
            Counters(s.trace) == Range(retries, s.retries + 1)
    decreases |probe|
  {
    var s := Run(retries, probe, writeOk);
    var start := [Running(retries), ProbeCall];
    assert Range(retries, retries + 1) == [retries];
    if |probe| == 0 {
      assert s.trace == start;
      CountersOfStart(retries);
    } else if probe[0].Success? {
      var d := Delivered(probe[0].res, writeOk);
      assert Counters(s.trace) == [retries] by {
        assert s.trace == start + d;
        CountersOfStart(retries);
        CountersOfDelivered(probe[0].res, writeOk);
        CountersAppend(start, d);
      }
    } else if retries < MaxRetries {
      var rest := Run(retries + 1, probe[1..], writeOk);
      assert Counters(s.trace) == [retries] + Counters(rest.trace) by {
        RetryStep(retries, probe, writeOk);
        CountersOfAttempt(retries);
        CountersAppend(Attempts(retries, 1), rest.trace);
      }
      CountersConsecutive(retries + 1, probe[1..], writeOk);
      assert s.retries == rest.retries;
      assert Range(retries, s.retries + 1) == [retries] + Range(retries + 1, s.retries + 1);
    } else {
      assert Counters(s.trace) == [retries] by {
        assert s.trace == start + [Fatal];
        CountersOfStart(retries);
        CountersOfSingle(Fatal);
        CountersAppend(start, [Fatal]);
      }
    }
  }

  /** Every retry number a run from within the budget logs lies between the
      starting counter and the maximum. */
  lemma CountersWithinBudget(retries: nat, probe: seq<Outcome>, writeOk: bool)
    requires retries <= MaxRetries
    ensures var cs := Counters(Run(retries, probe, writeOk).trace);
            forall i :: 0 <= i < |cs| ==> retries <= cs[i] <= MaxRetries
  {
    CountersConsecutive(retries, probe, writeOk);
  }

  lemma DeliveredRejected(res: SpeedTestResult)
    ensures Delivered(res, false) == Delivered(res, true) + [WriteError]
  {
  }

  /** The console error of a rejected write is none of the counted kinds. */
  lemma CountIgnoresWriteError(t: seq<Event>, b: bool, k: Kind)
    ensures Count(t + (if b then [WriteError] else []), k) == Count(t, k)
  {
    CountAppend(t, if b then [WriteError] else [], k);
    CountSingle(WriteError, k);
  }

  lemma AppendAssociates(a: seq<Event>, b: seq<Event>, c: seq<Event>)
    ensures a + (b + c) == (a + b) + c
  {
  }

  /** A rejected write of a successful first attempt adds only the console
      error. */
  lemma SwallowOnSuccess(retries: nat, probe: seq<Outcome>)
    requires |probe| > 0 && probe[0].Success?
    ensures Run(retries, probe, false).trace == Run(retries, probe, true).trace + [WriteError]
    ensures Run(retries, probe, false).retries == Run(retries, probe, true).retries
  {
    var start := [Running(retries), ProbeCall];
    SuccessEnds(retries, probe, false);
    SuccessEnds(retries, probe, true);
    DeliveredRejected(probe[0].res);
    AppendAssociates(start, Delivered(probe[0].res, true), [WriteError]);
  }

  /** A retried failure keeps whatever difference the rejected write makes
      to the rest of the run. */
  lemma SwallowOnRetry(retries: nat, probe: seq<Outcome>, tail: seq<Event>)
    requires retries < MaxRetries && |probe| > 0 && probe[0].Failure?
    requires Run(retries + 1, probe[1..], false).trace == Run(retries + 1, probe[1..], true).trace + tail
    requires Run(retries + 1, probe[1..], false).retries == Run(retries + 1, probe[1..], true).retries
    ensures Run(retries, probe, false).trace == Run(retries, probe, true).trace + tail
    ensures Run(retries, probe, false).retries == Run(retries, probe, true).retries
  {
    RetryStep(retries, probe, false);
    RetryStep(retries, probe, true);
    AppendAssociates(Attempts(retries, 1), Run(retries + 1, probe[1..], true).trace, tail);
  }

  /** A rejected write is only logged: the run with a rejecting datastore is
      the run with an accepting one plus the console error after the write,
      with the same counter. */
  lemma {:induction false} WriteFailureSwallowed(retries: nat, probe: seq<Outcome>)
    ensures var ok := Run(retries, probe, true);
            var rejected := Run(retries, probe, false);
      && rejected.retries == ok.retries
      && rejected.trace == ok.trace + (if Count(ok.trace, Writes) > 0 then [WriteError] else [])
    decreases |probe|
  {
    var ok := Run(retries, probe, true);
    var rejected := Run(retries, probe, false);
    CountStep(retries, probe, true, Writes);
    if |probe| == 0 {
      assert rejected.trace == ok.trace + [];
    } else if probe[0].Success? {
      SwallowOnSuccess(retries, probe);
    } else if retries < MaxRetries {
      WriteFailureSwallowed(retries + 1, probe[1..]);
      var okRest := Run(retries + 1, probe[1..], true);
      SwallowOnRetry(retries, probe, if Count(okRest.trace, Writes) > 0 then [WriteError] else []);
    } else {
      assert rejected.trace == ok.trace + [];
    }
  }

  /** Hence a rejected write changes none of the counts: no extra attempt, no
      retried failure and no fatal log. */
  lemma WriteFailureKeepsCounts(retries: nat, probe: seq<Outcome>, k: Kind)
    ensures Count(Run(retries, probe, false).trace, k) == Count(Run(retries, probe, true).trace, k)
  {
    var ok := Run(retries, probe, true);
    WriteFailureSwallowed(retries, probe);
    CountIgnoresWriteError(ok.trace, Count(ok.trace, Writes) > 0, k);
  }

  /** The runner neither creates the database nor logs a bootstrap error. */
  lemma {:induction false} RunOutsideBootstrap(retries: nat, probe: seq<Outcome>, writeOk: bool)
    ensures Count(Run(retries, probe, writeOk).trace, Creates) == 0
    ensures Count(Run(retries, probe, writeOk).trace, BootstrapErrors) == 0
    decreases |probe|
  {
    CountStep(retries, probe, writeOk, Creates);
    CountStep(retries, probe, writeOk, BootstrapErrors);
    if |probe| > 0 && probe[0].Failure? && retries < MaxRetries {
      RunOutsideBootstrap(retries + 1, probe[1..], writeOk);
    }
  }
}
