/** The operating system as the plugin sees it, and the steps both variants of
    the plugin share: `isPidValid`, `killProcessByPid`, `exit`, `savePid` and the
    guarded `spawn`.

    The process table is a set of live process ids. The Windows commands
    (`tasklist`, `taskkill`, `spawn`) are replaced by their outcomes, given as
    parameters: whether the process-table query fails, whether `taskkill`
    fails, and what `spawn` returns. */
module Processes {
  import opened Wrappers
  import opened Errors
  import opened PidRecord

  /** What `spawn` does: returns a child with a pid, a child whose pid is
      `undefined`, or throws. */
  datatype SpawnResult = SpawnedPid(pid: nat) | NoPid | SpawnThrows

  /** The outcomes of the operating-system calls one hook makes. */
  datatype Oracle = Oracle(queryFails: bool, killFails: bool, spawn: SpawnResult)

  /** One call to `spawn`, with its outcome. */
  datatype Launch = Launch(command: string, args: seq<string>, result: SpawnResult)

  /** The live process ids, the `.pid` record (`None` when the file is absent)
      and every `spawn` call the plugin has made. */
  datatype Host = Host(live: set<nat>, record: Option<string>, launches: seq<Launch>)

  /** The state after a hook's steps, and how its promise settles. */
  datatype Step = Step(host: Host, outcome: Outcome)

  /** `isPidValid`: a failed query resolves to false, never rejects. */
  function IsPidValid(live: set<nat>, pid: nat, queryFails: bool): (alive: bool)
    ensures alive ==> pid in live
    ensures queryFails ==> !alive
  {
    !queryFails && pid in live
  }

  /** `killProcessByPid`: kills only a pid the probe reports alive; a failed
      `taskkill` rejects and changes nothing. */
  function KillRule(h: Host, pid: nat, queryFails: bool, killFails: bool): (r: Step)
    ensures r.host.record == h.record && r.host.launches == h.launches
    ensures r.host.live == h.live - {pid} || r.host.live == h.live
    ensures r.outcome.Rejected? ==> r.host == h && r.outcome == Rejected(KillFailed(pid))
    ensures pid !in h.live || queryFails ==> r == Step(h, Done)
    ensures pid in h.live && !queryFails ==> (r.outcome.Rejected? <==> killFails)
    ensures !queryFails && r.outcome == Done ==> pid !in r.host.live
  {
    if !IsPidValid(h.live, pid, queryFails) then Step(h, Done)
    else if killFails then Step(h, Rejected(KillFailed(pid)))
    else Step(h.(live := h.live - {pid}), Done)
  }

  /** The process id the record names, as a set: empty when `getPid` is falsy. */
  function StoredPid(record: Option<string>): (s: set<nat>)
    ensures |s| <= 1
    ensures s != {} <==> Truthy(GetPid(record))
  {
    var v := GetPid(record);
    if Truthy(v) then {v.value.n} else {}
  }

  /** `exit`: kills the stored process only when `getPid` is truthy. */
  function ExitRule(h: Host, queryFails: bool, killFails: bool): (r: Step)
    ensures r.host.record == h.record && r.host.launches == h.launches
    ensures r.host.live <= h.live && h.live - r.host.live <= StoredPid(h.record)
    ensures !Truthy(GetPid(h.record)) ==> r == Step(h, Done)
    ensures queryFails || StoredPid(h.record) !! h.live ==> r == Step(h, Done)
    ensures r.outcome.Rejected? ==> r.host == h
    ensures r.outcome.Rejected? <==> killFails && !queryFails && StoredPid(h.record) != {} && StoredPid(h.record) <= h.live
    ensures !queryFails && r.outcome == Done ==> StoredPid(h.record) !! r.host.live
  {
    var pid := GetPid(h.record);
    if Truthy(pid) then KillRule(h, pid.value.n, queryFails, killFails) else Step(h, Done)
  }

  /** The `try` block around `spawn`: the call is made, a pid that is returned is
      alive, a truthy pid is saved, and an exception is caught. */
  function SpawnRule(h: Host, command: string, args: seq<string>, result: SpawnResult): (r: Step)
    ensures r.outcome == Done
    ensures r.host.launches == h.launches + [Launch(command, args, result)]
    ensures r.host.live == if result.SpawnedPid? then h.live + {result.pid} else h.live
    ensures r.host.record != h.record ==> result.SpawnedPid? && result.pid != 0
    ensures result.SpawnedPid? && result.pid != 0 ==> GetPid(r.host.record) == Some(Num(result.pid))
  {
    var h1 := h.(launches := h.launches + [Launch(command, args, result)]);
    match result
    case SpawnedPid(p) =>
      var h2 := h1.(live := h1.live + {p});
      SavedPidReadsBack(p);
      if p != 0 then Step(h2.(record := Some(FormatDecimal(p))), Done) else Step(h2, Done)
    case NoPid => Step(h1, Done)
    case SpawnThrows => Step(h1, Done)
  }

  /** The pid a launch produced, as a set. */
  function LaunchedPid(l: Launch): set<nat> {
    if l.result.SpawnedPid? then {l.result.pid} else {}
  }

  /** Every pid the plugin's `spawn` calls produced. */
  function Children(launches: seq<Launch>): set<nat>
    decreases |launches|
  {
    if launches == [] then {}
    else Children(launches[..|launches| - 1]) + LaunchedPid(launches[|launches| - 1])
  }

  /** The plugin's purpose: of the processes it spawned, at most the one its
      record names is still alive. */
  predicate SingleInstance(h: Host)
    ensures SingleInstance(h) ==> |Children(h.launches) * h.live| <= 1
  {
    SubsetCardinality(Children(h.launches) * h.live, StoredPid(h.record));
    Children(h.launches) * h.live <= StoredPid(h.record)
  }

  /** The operating-system answers under which the purpose is kept: the liveness
      query succeeds and a spawned child has a truthy pid. */
  predicate Reliable(o: Oracle) {
    !o.queryFails && (o.spawn.SpawnedPid? ==> o.spawn.pid != 0)
  }

  lemma SubsetCardinality(a: set<nat>, b: set<nat>)
    ensures a <= b ==> |a| <= |b|
  {
    if a <= b {
      assert b == a + (b - a);
    }
  }

  lemma ChildrenAppend(launches: seq<Launch>, l: Launch)
    ensures Children(launches + [l]) == Children(launches) + LaunchedPid(l)
  {
    assert (launches + [l])[..|launches|] == launches;
  }

  /** A second kill of the same pid is a no-op whatever the OS answers. */
  lemma KillIdempotent(h: Host, pid: nat, queryFails: bool, killFails: bool, queryFails2: bool, killFails2: bool)
    requires !queryFails && KillRule(h, pid, queryFails, killFails).outcome == Done
    ensures var h1 := KillRule(h, pid, queryFails, killFails).host;
      KillRule(h1, pid, queryFails2, killFails2) == Step(h1, Done)
  {
  }

  /** `exit` keeps the purpose on every path, and once it resolves after a
      successful query no spawned process is left alive. */
  lemma ExitKeepsSingleInstance(h: Host, queryFails: bool, killFails: bool)
    requires SingleInstance(h)
    ensures SingleInstance(ExitRule(h, queryFails, killFails).host)
    ensures var r := ExitRule(h, queryFails, killFails);
      !queryFails && r.outcome == Done ==> Children(r.host.launches) * r.host.live == {}
  {
  }

  /** A spawn made when no child is alive leaves exactly the new child alive and
      recorded. */
  lemma SpawnKeepsSingleInstance(h: Host, command: string, args: seq<string>, result: SpawnResult)
    requires Children(h.launches) * h.live == {}
    requires result.SpawnedPid? ==> result.pid != 0
    ensures SingleInstance(SpawnRule(h, command, args, result).host)
  {
    var r := SpawnRule(h, command, args, result).host;
    ChildrenAppend(h.launches, Launch(command, args, result));
    if result.SpawnedPid? {
      SavedPidReadsBack(result.pid);
      assert StoredPid(r.record) == {result.pid};
    }
  }

  /** The process table, the `.pid` file and the log of `spawn` calls, changed
      in place by the plugin's steps. */
  class Machine {
    var live: set<nat>
    var record: Option<string>
    var launches: seq<Launch>

    function State(): Host
      reads this
    {
      Host(live, record, launches)
    }

    constructor (live: set<nat>, record: Option<string>)
      ensures State() == Host(live, record, [])
    {
      this.live := live;
      this.record := record;
      this.launches := [];
    }

    /** `writeFileSync(PID_PATH, content)` */
    method WriteRecord(content: string)
      modifies this
      ensures State() == old(State()).(record := Some(content))
    {
      record := Some(content);
    }

    /** `savePid`: the record holds the decimal text of `pid`. */
    method SavePid(pid: nat)
      modifies this
      ensures State() == old(State()).(record := Some(FormatDecimal(pid)))
      ensures GetPid(record) == Some(Num(pid))
    {
      WriteRecord(FormatDecimal(pid));
      SavedPidReadsBack(pid);
    }

    /** `killProcessByPid` */
    method KillProcessByPid(pid: nat, queryFails: bool, killFails: bool) returns (r: Outcome)
      modifies this
      ensures Step(State(), r) == KillRule(old(State()), pid, queryFails, killFails)
    {
      var isValid := IsPidValid(live, pid, queryFails);
      if !isValid {
        return Done;
      }
      if killFails {
        return Rejected(KillFailed(pid));
      }
      live := live - {pid};
      r := Done;
    }

    /** `exit`: `pid && await killProcessByPid(pid)` */
    method Exit(queryFails: bool, killFails: bool) returns (r: Outcome)
      modifies this
      ensures Step(State(), r) == ExitRule(old(State()), queryFails, killFails)
    {
      var pid := GetPid(record);
      if Truthy(pid) {
        r := KillProcessByPid(pid.value.n, queryFails, killFails);
      } else {
        r := Done;
      }
    }

    /** `spawn(command, args, …)` */
    method Spawn(command: string, args: seq<string>, result: SpawnResult)
      modifies this
      ensures launches == old(launches) + [Launch(command, args, result)]
      ensures live == if result.SpawnedPid? then old(live) + {result.pid} else old(live)
      ensures record == old(record)
    {
      launches := launches + [Launch(command, args, result)];
      if result.SpawnedPid? {
        live := live + {result.pid};
      }
    }

    /** The `try` block: spawn, save a truthy pid, catch and log an exception. */
    method SpawnAndSave(command: string, args: seq<string>, result: SpawnResult)
      modifies this
      ensures Step(State(), Done) == SpawnRule(old(State()), command, args, result)
    {
      Spawn(command, args, result);
      match result
      case SpawnedPid(p) =>
        if p != 0 {
          SavePid(p);
        }
      case NoPid =>
      case SpawnThrows =>
    }
  }
}
