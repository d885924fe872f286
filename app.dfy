// The script as a running program: one module-level retry counter, shared by
// every attempt and never reset, and the events the process has produced so
// far. The runner re-invokes itself after a retried failure; since only one
// attempt is ever in flight, that chain of invocations is a loop here.
module App {
  import opened Schema
  import opened Runner
  import Writer
  import opened Bootstrap

  class Script {
    /** The module-level retry counter. */
    var retries: nat
    /** Everything observable the process has done so far, in order. */
    var trace: seq<Event>

    ghost predicate Valid()
      reads this
    {
      retries <= MaxRetries
    }

    /** The script as loaded: the counter starts at zero, nothing has happened. */
    constructor ()
      ensures Valid() && retries == 0 && trace == []
    {
      retries := 0;
      trace := [];
    }

    /** One invocation of the runner: log the start, call the probe and
        handle what it settles to. It reports whether the run is over; when it
        is not, the attempt failed within the budget, was logged as a retried
        failure and raised the counter by one. */
    method Attempt(rest: seq<Outcome>, writeOk: bool) returns (settled: bool)
      requires Valid()
      modifies this
      ensures Valid()
      ensures settled ==> trace == old(trace) + Run(old(retries), rest, writeOk).trace
      ensures settled ==> retries == old(retries) == Run(old(retries), rest, writeOk).retries
      ensures !settled ==> |rest| > 0 && rest[0].Failure? && old(retries) < MaxRetries
      ensures !settled ==> trace == old(trace) + Attempts(old(retries), 1) && retries == old(retries) + 1
    {
      trace := trace + [Running(retries), ProbeCall];
      if |rest| == 0 {
        // the probe call never settles: nothing more happens
        PendingEnds(retries, writeOk);
        settled := true;
      } else {
        match rest[0] {
          case Success(res) =>
            trace := trace + [Finished(res.result.id)];
            trace := trace + [WritePoints(Writer.ToPoints(res))];
            if !writeOk {
              trace := trace + [WriteError];
            }
            SuccessEnds(retries, rest, writeOk);
            assert trace == old(trace) + ([Running(retries), ProbeCall] + Delivered(res, writeOk));
            settled := true;
          case Failure =>
            if retries < MaxRetries {
              trace := trace + [AttemptError];
              assert trace == old(trace) + Attempts(retries, 1);
              retries := retries + 1;
              settled := false;
            } else {
              trace := trace + [Fatal];
              FailureEnds(rest, writeOk);
              settled := true;
            }
        }
      }
    }

    /** The runner with the re-invocations it triggers, facing the probe
        outcomes `probe` in order. The counter keeps its value between
        attempts and only ever grows, within the budget. */
    method RunSpeedTest(probe: seq<Outcome>, writeOk: bool)
      requires Valid()
      modifies this
      ensures Valid()
      ensures trace == old(trace) + Run(old(retries), probe, writeOk).trace
      ensures retries == Run(old(retries), probe, writeOk).retries
    {
      ghost var goal := Run(retries, probe, writeOk);
      var rest := probe;
      var settled := false;
      while !settled
        invariant Valid()
        invariant !settled ==> old(trace) + goal.trace == trace + Run(retries, rest, writeOk).trace
        invariant !settled ==> goal.retries == Run(retries, rest, writeOk).retries
        invariant settled ==> trace == old(trace) + goal.trace && retries == goal.retries
        decreases |rest|, if settled then 0 else 1
      {
        ghost var before := trace;
        ghost var counter := retries;
        settled := Attempt(rest, writeOk);
        if !settled {
          RetryStep(counter, rest, writeOk);
          AppendAssociates(before, Attempts(counter, 1), Run(counter + 1, rest[1..], writeOk).trace);
          rest := rest[1..];
        }
      }
    }

    /** The bootstrap followed, if it succeeds, by the first invocation of the
        runner, from the script as loaded. */
    method Start(list: ListResult, createOk: bool, probe: seq<Outcome>, writeOk: bool)
      requires Valid() && retries == 0 && trace == []
      modifies this
      ensures Valid()
      ensures trace == Process(list, createOk, probe, writeOk)
      ensures retries == if list.Names? && (DatabaseName in list.names || createOk)
                         then Run(0, probe, writeOk).retries else 0
    {
      trace := trace + [ListDatabases];
      match list {
        case ListFailed =>
          trace := trace + [BootstrapError];
        case Names(names) =>
          if DatabaseName !in names {
            trace := trace + [CreateDatabase(DatabaseName)];
            if !createOk {
              trace := trace + [BootstrapError];
              return;
            }
          }
          RunSpeedTest(probe, writeOk);
      }
    }
  }
}
