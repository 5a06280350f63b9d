// The launcher of src/launcher.rs: it picks the game executable and its
// support directory once, then hands out ports, three at a time, to every
// instance it launches and every multiplayer game it prepares. The file
// system (auto-detection, the glob over `Versions/Base*/SC2*`, the regex
// that parses each match, `is_dir`, `is_file`) is reduced to parameters: the
// already-parsed glob entries and the answers of the checks.
module Launcher {
  import opened Lobes

  /** Highest port number a `u16` can hold. */
  const MaxPort: nat := 65535

  datatype ExeArch = X64 | X32

  /** `LauncherSettings`: install directory (auto-detected when absent),
      whether to run through Wine, and the first port to hand out. */
  datatype LauncherSettings = LauncherSettings(dir: Option<string>, useWine: bool, basePort: nat)

  /** `LauncherSettings::default`. */
  function DefaultSettings(): (s: LauncherSettings)
    ensures s.dir.None? && !s.useWine && s.basePort == 9168
  {
    LauncherSettings(None, false, 9168)
  }

  // ---------------------------------------------------------------------------
  // Executable selection

  /** A glob match whose path the regex parsed: the executable's path, the
      number after `Base` and its architecture (`_x64` suffix or none). */
  datatype ExeEntry = ExeEntry(path: string, version: nat, arch: ExeArch)

  /** The loop variables of `select_exe`: the highest version seen, the
      recorded architecture and the executable chosen so far. */
  datatype Selection = Selection(version: nat, arch: ExeArch, exe: Result<(string, ExeArch)>)

  function NotFound(): Error { Bail("exe not found") }

  function InitialSelection(): Selection
  {
    Selection(0, X32, Err(NotFound()))
  }

  /** One iteration of the `select_exe` loop, as written. A strictly higher
      version is always recorded, and its entry adopted with the entry's
      architecture (under Wine only a 32-bit entry). An equal version without
      Wine replaces the path and pairs it with the recorded architecture,
      which turns X64 once an X64 entry of an equal version is seen and never
      turns back; a higher version does not reset it. */
  function SelectStep(s: Selection, e: ExeEntry, useWine: bool): Selection
  {
    if s.version < e.version then
      s.(version := e.version,
         exe := if useWine && e.arch != X32 then s.exe else Ok((e.path, e.arch)))
    else if s.version == e.version && !useWine then
      var arch := if s.arch == X64 || e.arch == X64 then X64 else X32;
      s.(arch := arch, exe := Ok((e.path, arch)))
    else s
  }

  /** The loop state after the entries, visited in glob order. */
  function SelectFold(entries: seq<ExeEntry>, useWine: bool): Selection
  {
    if entries == [] then InitialSelection()
    else SelectStep(SelectFold(entries[..|entries| - 1], useWine), entries[|entries| - 1], useWine)
  }

  /** The separator `select_exe` and `select_pwd` format paths with: the
      regex-escaped backslash (two backslash characters) on Windows, a
      slash elsewhere; any other separator panics. */
  function Separator(mainSeparator: char): (r: Option<string>)
    ensures r.Some? <==> mainSeparator == '\\' || mainSeparator == '/'
    ensures mainSeparator == '\\' ==> r == Some("\\\\") && |r.value| == 2
    ensures mainSeparator == '/' ==> r == Some("/")
  {
    if mainSeparator == '\\' then Some("\\\\")
    else if mainSeparator == '/' then Some("/")
    else None
  }

  /** `select_exe` as written: Wine is refused on Windows, an unknown
      separator panics, and otherwise the loop's final choice is returned. */
  function SelectExeSpec(entries: seq<ExeEntry>, useWine: bool, onWindows: bool, mainSeparator: char)
    : (r: Result<(string, ExeArch)>)
    ensures onWindows && useWine ==> r == Err(Bail("wine not supported on windows"))
    ensures !(onWindows && useWine) && Separator(mainSeparator).None? ==> r == Err(Bail("unsupported path separator"))
    ensures !(onWindows && useWine) && Separator(mainSeparator).Some? ==> r == SelectFold(entries, useWine).exe
  {
    if onWindows && useWine then Err(Bail("wine not supported on windows"))
    else if Separator(mainSeparator).None? then Err(Bail("unsupported path separator"))
    else SelectFold(entries, useWine).exe
  }

  /** `select_exe`'s loop over the glob entries, in order. */
  method SelectExe(entries: seq<ExeEntry>, useWine: bool, onWindows: bool, mainSeparator: char)
    returns (r: Result<(string, ExeArch)>)
    ensures r == SelectExeSpec(entries, useWine, onWindows, mainSeparator)
  {
    if onWindows && useWine {
      return Err(Bail("wine not supported on windows"));
    }
    if Separator(mainSeparator).None? {
      return Err(Bail("unsupported path separator"));
    }
    var currentVersion: nat := 0;
    var currentArch := X32;
    var exe: Result<(string, ExeArch)> := Err(NotFound());
    for i := 0 to |entries|
      invariant Selection(currentVersion, currentArch, exe) == SelectFold(entries[..i], useWine)
    {
      var e := entries[i];
      assert entries[..i + 1][..i] == entries[..i];
      if currentVersion < e.version {
        currentVersion := e.version;
        if useWine {
          if e.arch == X32 {
            exe := Ok((e.path, e.arch));
          }
        } else {
          exe := Ok((e.path, e.arch));
        }
      } else if currentVersion == e.version && !useWine {
        currentArch := match currentArch
          case X64 => X64
          case X32 => (match e.arch case X64 => X64 case X32 => X32);
        exe := Ok((e.path, currentArch));
      }
    }
    assert entries[..|entries|] == entries;
    r := exe;
  }

  /** The highest version among the entries, or 0 for none. */
  function MaxVersion(entries: seq<ExeEntry>): (m: nat)
    ensures forall i :: 0 <= i < |entries| ==> entries[i].version <= m
    ensures entries != [] ==> exists i :: 0 <= i < |entries| && entries[i].version == m
  {
    if entries == [] then 0
    else
      var front := MaxVersion(entries[..|entries| - 1]);
      var last := entries[|entries| - 1].version;
      assert forall i :: 0 <= i < |entries| - 1 ==> entries[..|entries| - 1][i] == entries[i];
      if front < last then last else front
  }

  /** The loop's recorded version is the highest version of the entries. */
  lemma {:induction false} SelectTracksMaxVersion(entries: seq<ExeEntry>, useWine: bool)
    ensures SelectFold(entries, useWine).version == MaxVersion(entries)
  {
    if entries != [] {
      SelectTracksMaxVersion(entries[..|entries| - 1], useWine);
    }
  }

  /** Without Wine, the loop's choice is an entry of the recorded (that is,
      the highest) version, and some executable is found exactly when there
      is at least one entry. */
  lemma {:induction false} NativeChoosesHighest(entries: seq<ExeEntry>)
    ensures SelectFold(entries, false).exe.Ok? <==> entries != []
    ensures SelectFold(entries, false).exe.Ok? ==>
              exists i :: 0 <= i < |entries| && entries[i].path == SelectFold(entries, false).exe.value.0
                          && entries[i].version == MaxVersion(entries)
  {
    SelectTracksMaxVersion(entries, false);
    if entries != [] {
      var front := entries[..|entries| - 1];
      var e := entries[|entries| - 1];
      NativeChoosesHighest(front);
      SelectTracksMaxVersion(front, false);
      var s := SelectFold(front, false);
      if s.version <= e.version {
        assert entries[|entries| - 1].path == SelectFold(entries, false).exe.value.0;
      } else {
        var i :| 0 <= i < |front| && front[i].path == s.exe.value.0 && front[i].version == MaxVersion(front);
        assert entries[i] == front[i];
      }
    }
  }

  /** Under Wine, only a 32-bit entry is ever chosen, and it is reported as
      32-bit. */
  lemma {:induction false} WineChoosesX32(entries: seq<ExeEntry>)
    ensures SelectFold(entries, true).exe.Ok? ==>
              SelectFold(entries, true).exe.value.1 == X32
              && exists i :: 0 <= i < |entries| && entries[i].arch == X32
                             && entries[i].path == SelectFold(entries, true).exe.value.0
  {
    if entries != [] {
      var front := entries[..|entries| - 1];
      WineChoosesX32(front);
      var s := SelectFold(front, true);
      if s.exe != SelectFold(entries, true).exe {
        assert entries[|entries| - 1].path == SelectFold(entries, true).exe.value.0;
      } else if s.exe.Ok? {
        var i :| 0 <= i < |front| && front[i].arch == X32 && front[i].path == s.exe.value.0;
        assert entries[i] == front[i];
      }
    }
  }

  /** Every 32-bit entry has a version no higher than some entry before it
      in glob order. */
  predicate X32Shadowed(entries: seq<ExeEntry>)
  {
    forall i :: 0 <= i < |entries| && entries[i].arch == X32 ==> entries[i].version <= MaxVersion(entries[..i])
  }

  /** Under Wine, nothing is found exactly when no 32-bit entry has a
      version above every version before it in glob order: a 64-bit entry
      of a higher version hides the 32-bit entries of lower versions that
      come after it. */
  lemma {:induction false} WineNotFound(entries: seq<ExeEntry>)
    ensures SelectFold(entries, true).exe.Err? <==> X32Shadowed(entries)
  {
    if entries != [] {
      var n := |entries| - 1;
      var front := entries[..n];
      var e := entries[n];
      WineNotFound(front);
      SelectTracksMaxVersion(front, true);
      assert X32Shadowed(entries) <==> X32Shadowed(front) && (e.arch == X32 ==> e.version <= MaxVersion(front)) by {
        assert entries[..n] == front;
        forall i | 0 <= i < n
          ensures entries[..i] == front[..i] && entries[i] == front[i]
        {
        }
      }
    }
  }

  /** The recorded architecture is sticky: once X64, no later entry turns it
      back to X32. */
  lemma {:induction false} ArchIsSticky(entries: seq<ExeEntry>, more: seq<ExeEntry>, useWine: bool)
    requires SelectFold(entries, useWine).arch == X64
    ensures SelectFold(entries + more, useWine).arch == X64
    decreases |more|
  {
    if more == [] {
      assert entries + more == entries;
    } else {
      var front := more[..|more| - 1];
      ArchIsSticky(entries, front, useWine);
      assert (entries + more)[..|entries + more| - 1] == entries + front;
    }
  }

  /** As written, the architecture paired with the chosen path need not be
      that path's: a 64-bit entry of version 1 makes the recorded
      architecture X64, a version-2 entry does not reset it, and the last
      version-2 entry, a 32-bit one, is reported as X64. */
  lemma StaleArchExample()
    ensures var entries := [ExeEntry("A", 1, X32), ExeEntry("B", 1, X64),
                            ExeEntry("C", 2, X32), ExeEntry("D", 2, X32)];
            SelectExeSpec(entries, false, false, '/') == Ok(("D", X64))
            && forall i :: 0 <= i < |entries| && entries[i].path == "D" ==> entries[i].arch == X32
  {
    var entries := [ExeEntry("A", 1, X32), ExeEntry("B", 1, X64),
                    ExeEntry("C", 2, X32), ExeEntry("D", 2, X32)];
    assert entries[..3][..2][..1][..0] == [];
    assert SelectFold(entries[..1], false) == Selection(1, X32, Ok(("A", X32)));
    assert entries[..2][..1] == entries[..1];
    assert SelectFold(entries[..2], false) == Selection(1, X64, Ok(("B", X64)));
    assert entries[..3][..2] == entries[..2];
    assert SelectFold(entries[..3], false) == Selection(2, X64, Ok(("C", X32)));
    assert entries[..4][..3] == entries[..3] && entries[..4] == entries;
  }

  // ---------------------------------------------------------------------------
  // Executable selection, corrected

  /** The corrected selection keeps the chosen entry itself, so the reported
      architecture is always the chosen path's. */
  datatype Choice = Choice(version: nat, exe: Option<ExeEntry>)

  /** One corrected iteration: a higher version is handled as before; at an
      equal version without Wine a 64-bit choice is kept against a 32-bit
      entry, and any other entry replaces the choice. */
  function ChooseStep(c: Choice, e: ExeEntry, useWine: bool): Choice
  {
    if c.version < e.version then
      Choice(e.version, if useWine && e.arch != X32 then c.exe else Some(e))
    else if c.version == e.version && !useWine then
      Choice(c.version, if c.exe.Some? && c.exe.value.arch == X64 && e.arch == X32 then c.exe else Some(e))
    else c
  }

  function ChooseFold(entries: seq<ExeEntry>, useWine: bool): Choice
  {
    if entries == [] then Choice(0, None)
    else ChooseStep(ChooseFold(entries[..|entries| - 1], useWine), entries[|entries| - 1], useWine)
  }

  /** The corrected loop finds an executable exactly when the loop as
      written does, and records the same version. */
  lemma {:induction false} FoldsAgree(entries: seq<ExeEntry>, useWine: bool)
    ensures ChooseFold(entries, useWine).version == SelectFold(entries, useWine).version
    ensures ChooseFold(entries, useWine).exe.Some? <==> SelectFold(entries, useWine).exe.Ok?
  {
    if entries != [] {
      FoldsAgree(entries[..|entries| - 1], useWine);
    }
  }

  /** The corrected choice is always one of the entries. */
  lemma {:induction false} ChosenIsEntry(entries: seq<ExeEntry>, useWine: bool)
    ensures ChooseFold(entries, useWine).exe.Some? ==> ChooseFold(entries, useWine).exe.value in entries
  {
    if entries != [] {
      var front := entries[..|entries| - 1];
      ChosenIsEntry(front, useWine);
      var c := ChooseFold(front, useWine);
      if c.exe.Some? && ChooseFold(entries, useWine).exe == c.exe {
        var k :| 0 <= k < |front| && front[k] == c.exe.value;
        assert entries[k] == front[k];
      }
    }
  }

  /** `select_exe` with the architecture bookkeeping corrected: it fails in
      the same cases as `select_exe`, and when it succeeds it reports an
      entry's path together with that entry's own architecture. */
  function SelectExeFixed(entries: seq<ExeEntry>, useWine: bool, onWindows: bool, mainSeparator: char)
    : (r: Result<(string, ExeArch)>)
    ensures onWindows && useWine ==> r == Err(Bail("wine not supported on windows"))
    ensures !(onWindows && useWine) && Separator(mainSeparator).None? ==> r == Err(Bail("unsupported path separator"))
    ensures r.Ok? <==> SelectExeSpec(entries, useWine, onWindows, mainSeparator).Ok?
    ensures r.Ok? ==> exists e :: e in entries && e.path == r.value.0 && e.arch == r.value.1
  {
    FoldsAgree(entries, useWine);
    ChosenIsEntry(entries, useWine);
    if onWindows && useWine then Err(Bail("wine not supported on windows"))
    else if Separator(mainSeparator).None? then Err(Bail("unsupported path separator"))
    else match ChooseFold(entries, useWine).exe
      case None => Err(NotFound())
      case Some(e) => Ok((e.path, e.arch))
  }

  /** Without Wine, the corrected choice is an entry of the highest version,
      64-bit whenever that version has a 64-bit entry, and some executable is
      found exactly when there is an entry. */
  lemma {:induction false} FixedChoosesHighest(entries: seq<ExeEntry>)
    ensures ChooseFold(entries, false).version == MaxVersion(entries)
    ensures ChooseFold(entries, false).exe.Some? <==> entries != []
    ensures ChooseFold(entries, false).exe.Some? ==>
              ChooseFold(entries, false).exe.value in entries
              && ChooseFold(entries, false).exe.value.version == MaxVersion(entries)
    ensures (exists i :: 0 <= i < |entries| && entries[i].version == MaxVersion(entries) && entries[i].arch == X64)
            ==> ChooseFold(entries, false).exe.value.arch == X64
  {
    if entries != [] {
      var front := entries[..|entries| - 1];
      var e := entries[|entries| - 1];
      FixedChoosesHighest(front);
      var c := ChooseFold(front, false);
      if c.exe.Some? {
        assert c.exe.value in entries by {
          var k :| 0 <= k < |front| && front[k] == c.exe.value;
          assert entries[k] == front[k];
        }
      }
      forall i | 0 <= i < |entries| && entries[i].version == MaxVersion(entries) && entries[i].arch == X64
        ensures ChooseFold(entries, false).exe.value.arch == X64
      {
        if i < |entries| - 1 {
          assert front[i] == entries[i];
        }
      }
    }
  }

  /** The corrected selection is the result the finding asks for on the
      example: the last version-2 entry, reported as the 32-bit executable
      it is. */
  lemma FixedExample()
    ensures SelectExeFixed([ExeEntry("A", 1, X32), ExeEntry("B", 1, X64),
                            ExeEntry("C", 2, X32), ExeEntry("D", 2, X32)], false, false, '/')
            == Ok(("D", X32))
  {
    var entries := [ExeEntry("A", 1, X32), ExeEntry("B", 1, X64),
                    ExeEntry("C", 2, X32), ExeEntry("D", 2, X32)];
    assert entries[..3][..2][..1][..0] == [];
    assert ChooseFold(entries[..1], false) == Choice(1, Some(entries[0]));
    assert entries[..2][..1] == entries[..1];
    assert ChooseFold(entries[..2], false) == Choice(1, Some(entries[1]));
    assert entries[..3][..2] == entries[..2];
    assert ChooseFold(entries[..3], false) == Choice(2, Some(entries[2]));
    assert entries[..4][..3] == entries[..3] && entries[..4] == entries;
  }

  // ---------------------------------------------------------------------------
  // The support directory

  /** `select_pwd`: the install directory, the separator, `Support` and, for
      a 64-bit executable, `64`; `None` when that is not a directory. */
  function SelectPwd(dir: string, arch: ExeArch, separator: string, isDir: bool): (r: Option<string>)
    ensures r.Some? <==> isDir
    ensures r.Some? ==> r.value == dir + separator + "Support" + (if arch == X64 then "64" else "")
    ensures r.Some? ==> |r.value| == |dir| + |separator| + 7 + (if arch == X64 then 2 else 0)
  {
    if isDir then Some(dir + separator + "Support" + (match arch case X64 => "64" case X32 => "")) else None
  }

  // ---------------------------------------------------------------------------
  // The launcher and its ports

  datatype InstanceKind = Native | Wine

  /** What `launch` configures an instance with: how to run which
      executable from where, the address it listens on, its window and the
      two game ports it uses. */
  datatype InstanceSettings = InstanceSettings(
    kind: InstanceKind, exe: string, pwd: Option<string>,
    address: (string, nat), windowRect: (nat, nat, nat, nat), ports: PortSet)

  class Launcher {
    const exe: string
    const pwd: Option<string>
    const useWine: bool
    var currentPort: nat
    /** Every port handed out so far. */
    ghost var handedOut: set<nat>

    /** Ports handed out are all below the next one to hand out. */
    ghost predicate Valid()
      reads this
    {
      forall p :: p in handedOut ==> p < currentPort
    }

    /** A launcher with its executable and support directory chosen, handing
        out ports from `basePort` on. */
    constructor(exe: string, pwd: Option<string>, useWine: bool, basePort: nat)
      ensures this.exe == exe && this.pwd == pwd && this.useWine == useWine
      ensures currentPort == basePort && handedOut == {} && Valid()
    {
      this.exe := exe;
      this.pwd := pwd;
      this.useWine := useWine;
      currentPort := basePort;
      handedOut := {};
    }

    /** `Launcher::launch`, port arithmetic and configuration: the instance
        listens on the current port and uses the next two as its game and
        base ports; the counter then moves past all three. When the
        executable is not a file the instance is refused before any port is
        taken. The three ports are new: none was handed out before. */
    method Launch(exeIsFile: bool) returns (r: Result<InstanceSettings>)
      requires Valid() && currentPort + 3 <= MaxPort
      modifies this
      ensures Valid()
      ensures r.Ok? <==> exeIsFile
      ensures !exeIsFile ==> r == Err(ExeDoesNotExist(exe)) && currentPort == old(currentPort)
                             && handedOut == old(handedOut)
      ensures r.Ok? ==>
                && r.value.address == ("127.0.0.1", old(currentPort))
                && r.value.ports == PortSet(old(currentPort) + 1, old(currentPort) + 2)
                && r.value.kind == (if useWine then Wine else Native)
                && r.value.exe == exe && r.value.pwd == pwd
                && r.value.windowRect == (10, 10, 1024, 768)
                && currentPort == old(currentPort) + 3
                && handedOut == old(handedOut) + {old(currentPort), old(currentPort) + 1, old(currentPort) + 2}
                && {old(currentPort), old(currentPort) + 1, old(currentPort) + 2} !! old(handedOut)
    {
      if !exeIsFile {
        return Err(ExeDoesNotExist(exe));
      }
      var settings := InstanceSettings(
        if useWine then Wine else Native, exe, pwd, ("127.0.0.1", currentPort), (10, 10, 1024, 768),
        PortSet(currentPort + 1, currentPort + 2));
      handedOut := handedOut + {currentPort, currentPort + 1, currentPort + 2};
      currentPort := currentPort + 3;
      r := Ok(settings);
    }

    /** `Launcher::create_game_ports`: the current port is the shared port,
        the next two the server's game and base ports; no client ports yet;
        the counter moves past all three, none of which was handed out
        before. */
    method CreateGamePorts() returns (ports: GamePorts)
      requires Valid() && currentPort + 3 <= MaxPort
      modifies this
      ensures Valid()
      ensures ports == GamePorts(old(currentPort), PortSet(old(currentPort) + 1, old(currentPort) + 2), [])
      ensures currentPort == old(currentPort) + 3
      ensures handedOut == old(handedOut) + {old(currentPort), old(currentPort) + 1, old(currentPort) + 2}
      ensures {old(currentPort), old(currentPort) + 1, old(currentPort) + 2} !! old(handedOut)
    {
      ports := GamePorts(currentPort, PortSet(currentPort + 1, currentPort + 2), []);
      handedOut := handedOut + {currentPort, currentPort + 1, currentPort + 2};
      currentPort := currentPort + 3;
    }
  }

  /** The install directory `Launcher::from` works in: the configured one,
      or else the auto-detected one, whose failure is the launcher's. */
  function InstallDir(settings: LauncherSettings, detected: Result<string>): (r: Result<string>)
    ensures settings.dir.Some? ==> r == Ok(settings.dir.value)
    ensures settings.dir.None? ==> r == detected
  {
    if settings.dir.Some? then Ok(settings.dir.value) else detected
  }

  /** The second half of `Launcher::from`: given the install directory and
      the selected executable, pick the support directory for the
      executable's architecture and hand out ports from the base port. */
  method Assemble(settings: LauncherSettings, dir: string, sel: Result<(string, ExeArch)>,
                  mainSeparator: char, supportIsDir: bool)
    returns (r: Result<Launcher>)
    requires sel.Ok? ==> Separator(mainSeparator).Some?
    ensures sel.Err? ==> r == Err(sel.error)
    ensures r.Ok? ==>
              && sel.Ok?
              && fresh(r.value)
              && r.value.exe == sel.value.0
              && r.value.pwd == SelectPwd(dir, sel.value.1, Separator(mainSeparator).value, supportIsDir)
              && r.value.useWine == settings.useWine
              && r.value.currentPort == settings.basePort && r.value.handedOut == {} && r.value.Valid()
    ensures sel.Ok? ==> r.Ok?
  {
    if sel.Err? {
      return Err(sel.error);
    }
    var pwd := SelectPwd(dir, sel.value.1, Separator(mainSeparator).value, supportIsDir);
    var launcher := new Launcher(sel.value.0, pwd, settings.useWine, settings.basePort);
    r := Ok(launcher);
  }

  /** `Launcher::from`, as written: take the configured directory (or the
      auto-detected one), run `select_exe`'s loop, pick the support
      directory for the architecture it reports, and hand out ports from the
      base port. */
  method FromSettings(settings: LauncherSettings, detected: Result<string>, entries: seq<ExeEntry>,
                      onWindows: bool, mainSeparator: char, supportIsDir: bool)
    returns (r: Result<Launcher>)
    ensures InstallDir(settings, detected).Err? ==> r == Err(detected.error)
    ensures r.Ok? ==>
              var sel := SelectExeSpec(entries, settings.useWine, onWindows, mainSeparator);
              && InstallDir(settings, detected).Ok? && sel.Ok?
              && fresh(r.value)
              && r.value.exe == sel.value.0
              && r.value.pwd == SelectPwd(InstallDir(settings, detected).value, sel.value.1,
                                          Separator(mainSeparator).value, supportIsDir)
              && r.value.useWine == settings.useWine
              && r.value.currentPort == settings.basePort && r.value.handedOut == {} && r.value.Valid()
    ensures InstallDir(settings, detected).Ok? ==>
              (r.Ok? <==> SelectExeSpec(entries, settings.useWine, onWindows, mainSeparator).Ok?)
  {
    var dir := InstallDir(settings, detected);
    if dir.Err? {
      return Err(dir.error);
    }
    var sel := SelectExe(entries, settings.useWine, onWindows, mainSeparator);
    r := Assemble(settings, dir.value, sel, mainSeparator, supportIsDir);
  }

  /** `Launcher::from` with the corrected selection: the same steps, but the
      reported architecture, and so the support directory, is the chosen
      executable's own. */
  method FromSettingsFixed(settings: LauncherSettings, detected: Result<string>, entries: seq<ExeEntry>,
                           onWindows: bool, mainSeparator: char, supportIsDir: bool)
    returns (r: Result<Launcher>)
    ensures InstallDir(settings, detected).Err? ==> r == Err(detected.error)
    ensures r.Ok? ==>
              var sel := SelectExeFixed(entries, settings.useWine, onWindows, mainSeparator);
              && InstallDir(settings, detected).Ok? && sel.Ok?
              && fresh(r.value)
              && r.value.exe == sel.value.0
              && r.value.pwd == SelectPwd(InstallDir(settings, detected).value, sel.value.1,
                                          Separator(mainSeparator).value, supportIsDir)
              && r.value.useWine == settings.useWine
              && r.value.currentPort == settings.basePort && r.value.handedOut == {} && r.value.Valid()
    ensures InstallDir(settings, detected).Ok? ==>
              (r.Ok? <==> SelectExeSpec(entries, settings.useWine, onWindows, mainSeparator).Ok?)
  {
    var dir := InstallDir(settings, detected);
    if dir.Err? {
      return Err(dir.error);
    }
    var sel := SelectExeFixed(entries, settings.useWine, onWindows, mainSeparator);
    r := Assemble(settings, dir.value, sel, mainSeparator, supportIsDir);
  }
}
