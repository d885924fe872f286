// The bootstrap of the script: list the databases, create the script's
// database unless it is already listed, then start the measurement runner;
// a failure of the listing or of the creation is logged and nothing runs.
module Bootstrap {
  import opened Schema
  import opened Runner

  /** What listing the databases settles to: their names, or a failure. */
  datatype ListResult = Names(names: seq<string>) | ListFailed

  /** The trace of the whole process from a fresh counter: the listing, the
      creation when the name is not listed, and then either the runner or
      the error log of the bootstrap. */
  function Process(list: ListResult, createOk: bool, probe: seq<Outcome>, writeOk: bool): seq<Event>
  {
    [ListDatabases] +
    match list
    case ListFailed => [BootstrapError]
    case Names(names) =>
      if DatabaseName in names then Run(0, probe, writeOk).trace
      else [CreateDatabase(DatabaseName)] + (if createOk then Run(0, probe, writeOk).trace else [BootstrapError])
  }

  /** The process lists the databases first, and creates the database exactly
      when the listing succeeded without naming it; the creation, when there
      is one, is the second event and so comes before any probe call. */
  lemma CreatesIffAbsent(list: ListResult, createOk: bool, probe: seq<Outcome>, writeOk: bool)
    ensures var t := Process(list, createOk, probe, writeOk);
      && t[0] == ListDatabases
      && Count(t, Creates) == (if list.Names? && DatabaseName !in list.names then 1 else 0)
      && (list.Names? && DatabaseName !in list.names ==> t[1] == CreateDatabase(DatabaseName))
  {
    var t := Process(list, createOk, probe, writeOk);
    var run := Run(0, probe, writeOk).trace;
    RunOutsideBootstrap(0, probe, writeOk);
    CountSingle(ListDatabases, Creates);
    CountSingle(CreateDatabase(DatabaseName), Creates);
    CountSingle(BootstrapError, Creates);
    match list
    case ListFailed =>
      CountAppend([ListDatabases], [BootstrapError], Creates);
    case Names(names) =>
      if DatabaseName in names {
        CountAppend([ListDatabases], run, Creates);
      } else {
        var after: seq<Event> := if createOk then run else [BootstrapError];
        CountAppend([CreateDatabase(DatabaseName)], after, Creates);
        CountAppend([ListDatabases], [CreateDatabase(DatabaseName)] + after, Creates);
      }
  }

  /** The runner starts, from a fresh counter, exactly when the listing
      succeeded and the database was listed or created; otherwise the
      process ends with the one error log of the bootstrap and no probe
      call. Errors of the runner itself never reach that error log. */
  lemma RunStartsIff(list: ListResult, createOk: bool, probe: seq<Outcome>, writeOk: bool)
    ensures var t := Process(list, createOk, probe, writeOk);
            var starts := list.Names? && (DatabaseName in list.names || createOk);
      && (Count(t, ProbeCalls) > 0 <==> starts)
      && (starts ==> t[|t| - |Run(0, probe, writeOk).trace|..] == Run(0, probe, writeOk).trace)
      && Count(t, BootstrapErrors) == (if starts then 0 else 1)
      && (!starts ==> t[|t| - 1] == BootstrapError)
  {
    var t := Process(list, createOk, probe, writeOk);
    var run := Run(0, probe, writeOk).trace;
    RunOutsideBootstrap(0, probe, writeOk);
    RunBounds(0, probe, writeOk);
    forall k: Kind | k == ProbeCalls || k == BootstrapErrors
      ensures Count(t, k) == Count(t[..|t| - 1], k) + Count([t[|t| - 1]], k)
    {
      assert t == t[..|t| - 1] + [t[|t| - 1]];
      CountAppend(t[..|t| - 1], [t[|t| - 1]], k);
    }
    CountSingle(ListDatabases, ProbeCalls);
    CountSingle(ListDatabases, BootstrapErrors);
    CountSingle(CreateDatabase(DatabaseName), ProbeCalls);
    CountSingle(CreateDatabase(DatabaseName), BootstrapErrors);
    CountSingle(BootstrapError, ProbeCalls);
    CountSingle(BootstrapError, BootstrapErrors);
    match list
    case ListFailed =>
      CountAppend([ListDatabases], [BootstrapError], ProbeCalls);
      CountAppend([ListDatabases], [BootstrapError], BootstrapErrors);
    case Names(names) =>
      if DatabaseName in names {
        CountAppend([ListDatabases], run, ProbeCalls);
        CountAppend([ListDatabases], run, BootstrapErrors);
      } else {
        var after: seq<Event> := if createOk then run else [BootstrapError];
        var created := [ListDatabases, CreateDatabase(DatabaseName)];
        assert t == created + after;
        CountPair(ListDatabases, CreateDatabase(DatabaseName), ProbeCalls);
        CountPair(ListDatabases, CreateDatabase(DatabaseName), BootstrapErrors);
        CountAppend(created, after, ProbeCalls);
        CountAppend(created, after, BootstrapErrors);
      }
  }
}
