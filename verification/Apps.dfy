/** The launch registry: where an app can be started from (apps.go). The file
    system is the set of paths that exist. */
module Apps {
  import opened Runs

  datatype LaunchCommand = LaunchCommand(execPath: string, args: seq<string>, cwd: string)

  datatype LaunchInfo = LaunchInfo(command: LaunchCommand, timeoutSeconds: int)

  datatype Registration = Registration(appName: string, version: string, launch: Option<LaunchInfo>)

  datatype Record = Record(
    appName: string, version: string, launch: LaunchCommand, timeoutSeconds: int, locations: seq<string>)

  function AppendUnique(list: seq<string>, v: string): seq<string> {
    if v in list then list else list + [v]
  }

  /** A path change moves the old path into the history. */
  function Saved(r: Record, p: Registration): Record {
    var named := r.(appName := p.appName, version := p.version);
    if p.launch.None? then named
    else
      var timed := named.(timeoutSeconds := p.launch.value.timeoutSeconds);
      var lc := p.launch.value.command;
      if lc.execPath == "" then timed
      else if lc.execPath != r.launch.execPath && r.launch.execPath != "" then
        timed.(launch := lc, locations := AppendUnique(r.locations, r.launch.execPath))
      else timed.(launch := lc)
  }

  /** The first of `list` that exists. */
  function FirstExisting(list: seq<string>, files: set<string>): Option<string> {
    if list == [] then None
    else if list[0] in files then Some(list[0])
    else FirstExisting(list[1..], files)
  }

  function CanLaunch(r: Record, files: set<string>): bool {
    r.launch.execPath != "" && (r.launch.execPath in files || FirstExisting(r.locations, files).Some?)
  }

  function Resolved(r: Record, files: set<string>): LaunchCommand {
    if r.launch.execPath in files then r.launch
    else
      match FirstExisting(r.locations, files)
      case Some(path) => r.launch.(execPath := path)
      case None => r.launch
  }

  class InstalledApp {
    var appName: string
    var version: string
    var launch: LaunchCommand
    var timeoutSeconds: int
    var locations: seq<string>

    function View(): Record
      reads this
    {
      Record(appName, version, launch, timeoutSeconds, locations)
    }

    constructor (r: Record)
      ensures View() == r
    {
      appName, version, launch, timeoutSeconds, locations :=
        r.appName, r.version, r.launch, r.timeoutSeconds, r.locations;
    }

    method SaveForRegistration(p: Registration)
      modifies this
      ensures View() == Saved(old(View()), p)
    {
      appName, version := p.appName, p.version;
      if p.launch.Some? {
        var lc := p.launch.value.command;
        timeoutSeconds := p.launch.value.timeoutSeconds;
        if lc.execPath != "" && lc.execPath != launch.execPath {
          if launch.execPath != "" {
            locations := Appended(locations, launch.execPath);
          }
          launch := lc;
        } else if lc.execPath != "" {
          launch := lc;
        }
      }
    }

    static method Appended(list: seq<string>, v: string) returns (out: seq<string>)
      ensures out == AppendUnique(list, v)
    {
      for i := 0 to |list|
        invariant v !in list[..i]
      {
        if list[i] == v {
          return list;
        }
      }
      return list + [v];
    }

    method Launchable(files: set<string>) returns (ok: bool)
      ensures ok == CanLaunch(View(), files)
    {
      if launch.execPath == "" {
        return false;
      }
      if launch.execPath in files {
        return true;
      }
      for i := 0 to |locations|
        invariant FirstExisting(locations, files) == FirstExisting(locations[i..], files)
      {
        if locations[i] in files {
          return true;
        }
      }
      return false;
    }

    method ResolveLaunch(files: set<string>) returns (lc: LaunchCommand)
      ensures lc == Resolved(View(), files)
    {
      if launch.execPath in files {
        return launch;
      }
      for i := 0 to |locations|
        invariant FirstExisting(locations, files) == FirstExisting(locations[i..], files)
      {
        if locations[i] in files {
          return launch.(execPath := locations[i]);
        }
      }
      return launch;
    }
  }

  // --- over any sequence of registrations ----------------------------------

  function AfterAll(r: Record, ps: seq<Registration>): Record {
    if ps == [] then r else Saved(AfterAll(r, ps[..|ps| - 1]), ps[|ps| - 1])
  }

  /** The non-empty paths a sequence of registrations reports. */
  ghost function Reported(ps: seq<Registration>): set<string> {
    set p | p in ps && p.launch.Some? && p.launch.value.command.execPath != "" :: p.launch.value.command.execPath
  }

  /** The paths a record knows. */
  ghost function Known(r: Record): set<string> {
    (set l | l in r.locations) + (if r.launch.execPath == "" then {} else {r.launch.execPath})
  }

  ghost predicate WellFormed(r: Record) {
    && "" !in r.locations
    && (forall i, j | 0 <= i < j < |r.locations| :: r.locations[i] != r.locations[j])
    && (r.launch.execPath == "" ==> r.locations == [])
  }

  /** However often an app registers: its history has no duplicates, and history
      and current path together are exactly the paths known before or reported since. */
  lemma {:induction false} HistoryIsExact(r: Record, ps: seq<Registration>)
    requires WellFormed(r)
    ensures WellFormed(AfterAll(r, ps))
    ensures Known(AfterAll(r, ps)) == Known(r) + Reported(ps)
  {
    if ps != [] {
      var init, p := ps[..|ps| - 1], ps[|ps| - 1];
      HistoryIsExact(r, init);
      assert ps == init + [p];
      SavedKnows(AfterAll(r, init), p);
    }
  }

  lemma SavedKnows(r: Record, p: Registration)
    requires WellFormed(r)
    ensures WellFormed(Saved(r, p)) && Known(Saved(r, p)) == Known(r) + Reported([p])
  {
    if p.launch.Some? && p.launch.value.command.execPath != "" {
      assert p in [p];
      assert Reported([p]) == {p.launch.value.command.execPath};
    } else {
      assert Reported([p]) == {};
    }
  }

  lemma {:induction false} FirstExistingIsFirst(list: seq<string>, files: set<string>)
    ensures match FirstExisting(list, files)
            case None => forall l | l in list :: l !in files
            case Some(path) =>
              path in files
              && exists i :: 0 <= i < |list| && list[i] == path && forall l | l in list[..i] :: l !in files
  {
    if list != [] {
      FirstExistingIsFirst(list[1..], files);
      if list[0] !in files && FirstExisting(list, files).Some? {
        var path := FirstExisting(list, files).value;
        var i :| 0 <= i < |list[1..]| && list[1..][i] == path && forall l | l in list[1..][..i] :: l !in files;
        assert list[..i + 1] == [list[0]] + list[1..][..i];
        assert list[i + 1] == path;
      } else if list[0] in files {
        assert list[..0] == [];
      }
    }
  }

  /** The app is launchable iff one of the paths ever reported exists, which is,
      once a path is known, also when the resolved command exists; the current
      path is preferred, and arguments and directory are kept. */
  lemma LaunchableIffSomePathExists(r: Record, ps: seq<Registration>, files: set<string>)
    requires WellFormed(r)
    ensures var last := AfterAll(r, ps);
      && (CanLaunch(last, files) <==> exists path :: path in Known(r) + Reported(ps) && path in files)
      && (last.launch.execPath in files ==> Resolved(last, files) == last.launch)
      && Resolved(last, files).(execPath := "") == last.launch.(execPath := "")
      && (Known(r) + Reported(ps) != {} ==>
            && (CanLaunch(last, files) <==> Resolved(last, files).execPath in files)
            && Resolved(last, files).execPath in Known(r) + Reported(ps))
      && (CanLaunch(last, files) && last.launch.execPath !in files ==>
            exists i :: 0 <= i < |last.locations| && Resolved(last, files).execPath == last.locations[i]
                        && forall l | l in last.locations[..i] :: l !in files)
  {
    var last := AfterAll(r, ps);
    HistoryIsExact(r, ps);
    FirstExistingIsFirst(last.locations, files);
    if last.launch.execPath != "" {
      assert last.launch.execPath in Known(last);
    } else {
      assert Known(last) == {};
    }
    if FirstExisting(last.locations, files).Some? {
      assert FirstExisting(last.locations, files).value in Known(last);
    }
  }

  // --- which command is current --------------------------------------------

  /** The registration reports a command with a path. */
  predicate ReportsPath(p: Registration) {
    p.launch.Some? && p.launch.value.command.execPath != ""
  }

  /** The last reported command is the current one, with its path, arguments and
      directory; it is what a launch uses as long as its path exists. */
  lemma {:induction false} LastCommandIsCurrent(r: Record, ps: seq<Registration>, k: nat, files: set<string>)
    requires k < |ps| && ReportsPath(ps[k]) && forall m | k < m < |ps| :: !ReportsPath(ps[m])
    ensures AfterAll(r, ps).launch == ps[k].launch.value.command
    ensures ps[k].launch.value.command.execPath in files ==>
              Resolved(AfterAll(r, ps), files) == ps[k].launch.value.command
  {
    var init := ps[..|ps| - 1];
    if k < |init| {
      assert init[k] == ps[k] && forall m | k < m < |init| :: init[m] == ps[m];
      LastCommandIsCurrent(r, init, k, files);
    }
  }

  /** Without a reported path, command and history stay as they were. */
  lemma {:induction false} NoPathKeepsCommand(r: Record, ps: seq<Registration>)
    requires forall p | p in ps :: !ReportsPath(p)
    ensures AfterAll(r, ps).launch == r.launch && AfterAll(r, ps).locations == r.locations
  {
    if ps != [] {
      NoPathKeepsCommand(r, ps[..|ps| - 1]);
      assert ps[|ps| - 1] in ps;
    }
  }

  /** Name and version are those of the last registration. */
  lemma LastNameIsCurrent(r: Record, ps: seq<Registration>)
    requires ps != []
    ensures AfterAll(r, ps).appName == ps[|ps| - 1].appName && AfterAll(r, ps).version == ps[|ps| - 1].version
  {
  }

  /** The timeout is that of the last registration with launch information, or the old one. */
  lemma {:induction false} LastTimeoutIsCurrent(r: Record, ps: seq<Registration>, k: int)
    requires -1 <= k < |ps| && (k >= 0 ==> ps[k].launch.Some?)
    requires forall m | k < m < |ps| :: ps[m].launch.None?
    ensures AfterAll(r, ps).timeoutSeconds == if k < 0 then r.timeoutSeconds else ps[k].launch.value.timeoutSeconds
  {
    if ps != [] && k < |ps| - 1 {
      var init := ps[..|ps| - 1];
      assert forall m | k < m < |init| :: init[m] == ps[m];
      LastTimeoutIsCurrent(r, init, k);
    }
  }

  /** The history only grows at its end, by the path that a registration replaces. */
  lemma {:induction false} HistoryGrowsAtEnd(r: Record, ps: seq<Registration>, p: Registration)
    ensures r.locations <= AfterAll(r, ps).locations
    ensures var last, next := AfterAll(r, ps), AfterAll(r, ps + [p]);
      next.locations == last.locations
        + if ReportsPath(p) && last.launch.execPath != "" && last.launch.execPath != p.launch.value.command.execPath
             && last.launch.execPath !in last.locations
          then [last.launch.execPath] else []
  {
    assert (ps + [p])[..|ps|] == ps;
    if ps != [] {
      HistoryGrowsAtEnd(r, ps[..|ps| - 1], ps[|ps| - 1]);
      assert ps == ps[..|ps| - 1] + [ps[|ps| - 1]];
    }
  }
}
