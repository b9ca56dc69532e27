/**
 The update and rollback file protocol (autoupdate/main.go). A file system maps paths to
 contents; every operation may fail, and looking at a file may fail too, which the code takes
 for absence.
 */
module AutoUpdate {
  type Content = nat

  type Files = map<string, Content>

  /** Current, backup and latest path of a file. */
  type Paths = (string, string, string)

  /** Which operations of one `backupAndSetLatest` fail. */
  datatype Faults = Faults(statLatest: bool, statBackup: bool, remove: bool, statCur: bool, renameCur: bool,
                           renameLatest: bool, statTemp: bool, renameTemp: bool, chmod: bool)

  const FAULTLESS := Faults(false, false, false, false, false, false, false, false, false)

  /** No look at a file fails. */
  predicate SeesFiles(f: Faults) {
    !f.statLatest && !f.statBackup && !f.statCur && !f.statTemp
  }

  predicate Exists(fs: Files, path: string, statFails: bool) {
    path in fs && !statFails
  }

  /** A rename replaces its target. */
  function Renamed(fs: Files, from: string, to: string): Files
    requires from in fs
  {
    (fs - {from})[to := fs[from]]
  }

  class FileSystem {
    var files: Files

    constructor (files: Files)
      ensures this.files == files
    {
      this.files := files;
    }

    method Rename(from: string, to: string, fails: bool) returns (ok: bool)
      modifies this
      ensures ok <==> from in old(files) && !fails
      ensures files == if ok then Renamed(old(files), from, to) else old(files)
    {
      if from !in files || fails {
        return false;
      }
      files := Renamed(files, from, to);
      return true;
    }

    method BackupAndSetLatest(cur: string, backup: string, latest: string, exec: bool, rollback: bool, f: Faults)
      returns (ok: bool)
      modifies this
      ensures (files, ok) == Stepped(old(files), cur, backup, latest, exec, rollback, f)
    {
      if rollback && !Exists(files, latest, f.statLatest) {
        return false;
      }
      if Exists(files, backup, f.statBackup) {
        if f.remove {
          return false;
        }
        files := files - {backup};
      }
      if Exists(files, cur, f.statCur) {
        ok := Rename(cur, backup, f.renameCur);
        if !ok {
          return false;
        }
      }
      ok := Rename(latest, cur, f.renameLatest);
      if !ok {
        return false;
      }
      if rollback && Exists(files, backup, f.statTemp) {
        ok := Rename(backup, latest, f.renameTemp);
        if !ok {
          return false;
        }
      }
      if exec {
        if cur !in files || f.chmod {
          return false;
        }
      }
      return true;
    }
  }

  // ---------------------------------------------------------------- the effect of one call

  /** After the stale backup is dealt with; None when deleting it failed. */
  function Cleared(fs: Files, backup: string, f: Faults): (Files, bool) {
    if Exists(fs, backup, f.statBackup) then (if f.remove then (fs, false) else (fs - {backup}, true)) else (fs, true)
  }

  function SavedCur(fs: Files, cur: string, backup: string, f: Faults): (Files, bool) {
    if Exists(fs, cur, f.statCur) then (if f.renameCur then (fs, false) else (Renamed(fs, cur, backup), true))
    else (fs, true)
  }

  function Installed(fs: Files, cur: string, backup: string, latest: string,
                     exec: bool, rollback: bool, f: Faults): (Files, bool) {
    if latest !in fs || f.renameLatest then (fs, false)
    else
      var s := Renamed(fs, latest, cur);
      if rollback && Exists(s, backup, f.statTemp) then
        if f.renameTemp then (s, false) else (var t := Renamed(s, backup, latest); (t, !exec || (cur in t && !f.chmod)))
      else (s, !exec || !f.chmod)
  }

  function Stepped(fs: Files, cur: string, backup: string, latest: string,
                   exec: bool, rollback: bool, f: Faults): (Files, bool) {
    if rollback && !Exists(fs, latest, f.statLatest) then (fs, false)
    else
      var s1 := Cleared(fs, backup, f);
      if !s1.1 then s1
      else
        var s2 := SavedCur(s1.0, cur, backup, f);
        if !s2.1 then s2 else Installed(s2.0, cur, backup, latest, exec, rollback, f)
  }

  function Update(fs: Files, cur: string, backup: string, latest: string, exec: bool, f: Faults): Files {
    Stepped(fs, cur, backup, latest, exec, false, f).0
  }

  /** Rolling back takes the backup for the latest file and a temporary file for the backup. */
  function Rollback(fs: Files, cur: string, backup: string, exec: bool, f: Faults): Files {
    Stepped(fs, cur, backup + ".tmp", backup, exec, true, f).0
  }

  predicate DistinctPaths(cur: string, backup: string, latest: string) {
    var tmp := backup + ".tmp";
    cur != backup && cur != latest && backup != latest && tmp != cur && tmp != latest && tmp != backup
  }

  // ---------------------------------------------------------------- what update and rollback achieve

  /** A backup from an earlier update is still there when this update ends without its own. */
  predicate StaleBackupKept(fs: Files, backup: string, f: Faults) {
    backup in fs && (if f.statBackup then f.statCur || f.renameCur else f.remove)
  }

  /** The new file went over the current one, which was taken to be absent. */
  predicate Overwritten(fs: Files, backup: string, latest: string, f: Faults) {
    f.statCur && latest in fs && !f.renameLatest && !(backup in fs && !f.statBackup && f.remove)
  }

  /** Without faults, a rollback brings the backup to the current path if there is one, and else
      changes nothing. */
  lemma CleanRollback(fs: Files, cur: string, backup: string, exec: bool)
    requires cur != backup && backup + ".tmp" != cur
    ensures var s := Rollback(fs, cur, backup, exec, FAULTLESS);
            if backup in fs then cur in s && s[cur] == fs[backup] else s == fs
  {
  }

  /** The content an update leaves for a rollback to put in place. */
  lemma UpdateLeaves(fs: Files, cur: string, backup: string, latest: string, exec: bool, f: Faults)
    requires DistinctPaths(cur, backup, latest) && cur in fs
    ensures var s := Update(fs, cur, backup, latest, exec, f);
            if StaleBackupKept(fs, backup, f) then backup in s && s[backup] == fs[backup]
            else if Overwritten(fs, backup, latest, f) then backup !in s && cur in s && s[cur] == fs[latest]
            else (backup in s && s[backup] == fs[cur]) || (backup !in s && cur in s && s[cur] == fs[cur])
  {
  }

  /** An update succeeds exactly when nothing it does fails; the new file is then in place and no longer
      among the downloads, and the old one is the backup unless it was not seen. */
  lemma UpdateSucceedsIff(fs: Files, cur: string, backup: string, latest: string, exec: bool, f: Faults)
    requires DistinctPaths(cur, backup, latest)
    ensures var (s, ok) := Stepped(fs, cur, backup, latest, exec, false, f);
            && (ok <==> latest in fs && !f.renameLatest && (exec ==> !f.chmod)
                        && (backup in fs && !f.statBackup ==> !f.remove) && (cur in fs && !f.statCur ==> !f.renameCur))
            && (ok ==> cur in s && s[cur] == fs[latest] && latest !in s)
            && (ok && cur in fs && !f.statCur ==> backup in s && s[backup] == fs[cur])
  {
  }

  /** A rollback succeeds exactly when there is a backup and nothing it does fails; the backup is then in
      place, and the file it replaced is the new backup if the rollback saw it. */
  lemma RollbackSucceedsIff(fs: Files, cur: string, backup: string, exec: bool, g: Faults)
    requires cur != backup && backup + ".tmp" != cur
    ensures var (s, ok) := Stepped(fs, cur, backup + ".tmp", backup, exec, true, g);
            var tmp := backup + ".tmp";
            var saved := cur in fs && !g.statCur;
            && (ok <==> backup in fs && !g.statLatest && !g.renameLatest && (exec ==> !g.chmod)
                        && (tmp in fs && !g.statBackup ==> !g.remove) && (saved ==> !g.renameCur)
                        && (!g.statTemp && (saved || (tmp in fs && g.statBackup)) ==> !g.renameTemp))
            && (ok ==> cur in s && s[cur] == fs[backup])
            && (ok && saved && !g.statTemp ==> backup in s && s[backup] == fs[cur] && tmp !in s)
  {
    assert backup + ".tmp" != backup by { assert |backup + ".tmp"| == |backup| + 4; }
  }

  /** Whatever fails during the update, a rollback without faults puts the old content back at the
      current path if and only if no stale backup was left standing and the current file was not
      overwritten unseen. */
  lemma RollbackRestoresIff(fs: Files, cur: string, backup: string, latest: string, exec: bool, exec': bool, f: Faults)
    requires DistinctPaths(cur, backup, latest) && cur in fs
    requires (backup in fs ==> fs[backup] != fs[cur]) && (latest in fs ==> fs[latest] != fs[cur])
    ensures var end := Rollback(Update(fs, cur, backup, latest, exec, f), cur, backup, exec', FAULTLESS);
            (cur in end && end[cur] == fs[cur]) <==>
            !StaleBackupKept(fs, backup, f) && !Overwritten(fs, backup, latest, f)
  {
    UpdateLeaves(fs, cur, backup, latest, exec, f);
    CleanRollback(Update(fs, cur, backup, latest, exec, f), cur, backup, exec');
  }

  /** In particular after every outcome but a failed deletion, as long as files can be seen. */
  lemma RollbackRestores(fs: Files, cur: string, backup: string, latest: string, exec: bool, exec': bool, f: Faults)
    requires DistinctPaths(cur, backup, latest) && cur in fs && SeesFiles(f)
    requires backup in fs ==> !f.remove
    ensures var end := Rollback(Update(fs, cur, backup, latest, exec, f), cur, backup, exec', FAULTLESS);
            cur in end && end[cur] == fs[cur]
  {
    UpdateLeaves(fs, cur, backup, latest, exec, f);
    CleanRollback(Update(fs, cur, backup, latest, exec, f), cur, backup, exec');
  }

  ghost predicate Holds(fs: Files, c: Content) {
    exists p :: p in fs && fs[p] == c
  }

  predicate HasAt(fs: Files, p: string, c: Content) {
    p in fs && fs[p] == c
  }

  /** Where an update may leave the content of the current and of the new file. */
  lemma UpdateMoves(fs: Files, cur: string, backup: string, latest: string, exec: bool, f: Faults)
    requires DistinctPaths(cur, backup, latest)
    ensures var s := Update(fs, cur, backup, latest, exec, f);
            && (cur in fs && !Overwritten(fs, backup, latest, f) ==>
                  HasAt(s, cur, fs[cur]) || HasAt(s, backup, fs[cur]))
            && (latest in fs ==> HasAt(s, cur, fs[latest]) || HasAt(s, latest, fs[latest]))
  {
  }

  /** An update never loses the new content. It loses current content held nowhere else if and only if
      the current file is taken to be absent and the new one goes over it. */
  lemma UpdateLosesIff(fs: Files, cur: string, backup: string, latest: string, exec: bool, f: Faults)
    requires DistinctPaths(cur, backup, latest) && cur in fs && (forall p :: p in fs && p != cur ==> fs[p] != fs[cur])
    ensures var s := Update(fs, cur, backup, latest, exec, f);
            && (!Holds(s, fs[cur]) <==> Overwritten(fs, backup, latest, f))
            && (latest in fs ==> Holds(s, fs[latest]))
  {
    UpdateMoves(fs, cur, backup, latest, exec, f);
  }

  /** The backup goes over the current file, which is taken to be absent. */
  predicate RollbackOverwrites(fs: Files, backup: string, g: Faults) {
    && backup in fs && !g.statLatest && g.statCur && !g.renameLatest
    && !(backup + ".tmp" in fs && !g.statBackup && g.remove)
  }

  /** Where a rollback may leave the content of the current file. */
  lemma RollbackMovesCurrent(fs: Files, cur: string, backup: string, exec: bool, g: Faults)
    requires cur != backup && backup + ".tmp" != cur && cur in fs && !RollbackOverwrites(fs, backup, g)
    ensures var s := Rollback(fs, cur, backup, exec, g);
            HasAt(s, cur, fs[cur]) || HasAt(s, backup + ".tmp", fs[cur]) || HasAt(s, backup, fs[cur])
  {
    assert backup + ".tmp" != backup by { assert |backup + ".tmp"| == |backup| + 4; }
  }

  /** Where a rollback may leave the content of the backup. */
  lemma RollbackMovesBackup(fs: Files, cur: string, backup: string, exec: bool, g: Faults)
    requires cur != backup && backup + ".tmp" != cur && backup in fs
    ensures var s := Rollback(fs, cur, backup, exec, g); HasAt(s, cur, fs[backup]) || HasAt(s, backup, fs[backup])
  {
    assert backup + ".tmp" != backup by { assert |backup + ".tmp"| == |backup| + 4; }
  }

  /** A rollback never loses the backed-up content. It loses current content held nowhere else if and
      only if the current file is taken to be absent and the backup goes over it. */
  lemma RollbackLosesIff(fs: Files, cur: string, backup: string, exec: bool, g: Faults)
    requires cur != backup && backup + ".tmp" != cur
    requires cur in fs && (forall p :: p in fs && p != cur ==> fs[p] != fs[cur])
    ensures var s := Rollback(fs, cur, backup, exec, g);
            && (!Holds(s, fs[cur]) <==> RollbackOverwrites(fs, backup, g))
            && (backup in fs ==> Holds(s, fs[backup]))
  {
    if !RollbackOverwrites(fs, backup, g) {
      RollbackMovesCurrent(fs, cur, backup, exec, g);
    }
    if backup in fs {
      RollbackMovesBackup(fs, cur, backup, exec, g);
    }
  }

  /** The content is at one of the paths that belong to the file. */
  predicate KeptAt(fs: Files, c: Paths, content: Content) {
    HasAt(fs, c.0, content) || HasAt(fs, c.1, content) || HasAt(fs, c.2, content) || HasAt(fs, c.1 + ".tmp", content)
  }

  /** Between update and rollback: the old content is current or backed up, the new one current or
      still among the downloads. */
  predicate Between(fs: Files, c: Paths, was: Files) {
    && (c.0 in was ==> HasAt(fs, c.0, was[c.0]) || HasAt(fs, c.1, was[c.0]))
    && (c.2 in was ==> HasAt(fs, c.0, was[c.2]) || HasAt(fs, c.2, was[c.2]))
  }

  predicate BothKept(fs: Files, c: Paths, was: Files) {
    (c.0 in was ==> KeptAt(fs, c, was[c.0])) && (c.2 in was ==> KeptAt(fs, c, was[c.2]))
  }

  lemma UpdateBetween(fs: Files, c: Paths, exec: bool, f: Faults)
    requires DistinctPaths(c.0, c.1, c.2) && !f.statCur
    ensures Between(Update(fs, c.0, c.1, c.2, exec, f), c, fs)
  {
    UpdateMoves(fs, c.0, c.1, c.2, exec, f);
  }

  lemma RollbackKeepsBoth(fs: Files, c: Paths, was: Files, exec: bool, g: Faults)
    requires DistinctPaths(c.0, c.1, c.2) && Between(fs, c, was) && !g.statCur
    ensures BothKept(Rollback(fs, c.0, c.1, exec, g), c, was)
  {
    if c.0 in fs {
      RollbackMovesCurrent(fs, c.0, c.1, exec, g);
    }
    if c.1 in fs {
      RollbackMovesBackup(fs, c.0, c.1, exec, g);
    }
    StepTouchesOnly(fs, c.0, c.1 + ".tmp", c.1, exec, true, g, c.2);
  }

  /** An update and the rollback after it, whatever fails in either, lose neither the old nor the new
      content, as long as the current file is seen when it is there. */
  lemma UpdateRollbackLosesNothing(fs: Files, c: Paths, exec: bool, exec': bool, f: Faults, g: Faults)
    requires DistinctPaths(c.0, c.1, c.2) && !f.statCur && !g.statCur
    ensures BothKept(Rollback(Update(fs, c.0, c.1, c.2, exec, f), c.0, c.1, exec', g), c, fs)
  {
    UpdateBetween(fs, c, exec, f);
    RollbackKeepsBoth(Update(fs, c.0, c.1, c.2, exec, f), c, fs, exec', g);
  }

  /** A current file that cannot be looked at is overwritten, and its content is gone. */
  lemma UnseenFileLost() returns (fs: Files, f: Faults, s: Files)
    ensures DistinctPaths("c", "b", "n") && "c" in fs && s == Update(fs, "c", "b", "n", false, f) && !Holds(s, fs["c"])
  {
    fs := map["c" := 1, "n" := 2];
    f := FAULTLESS.(statCur := true);
    s := Update(fs, "c", "b", "n", false, f);
    assert "b" + ".tmp" == "b.tmp";
    assert s == map["c" := 2];
  }

  /** One step touches only its own paths, so the three files of an update do not interfere. */
  lemma StepTouchesOnly(fs: Files, cur: string, backup: string, latest: string,
                        exec: bool, rollback: bool, f: Faults, p: string)
    requires p != cur && p != backup && p != latest
    ensures var s := Stepped(fs, cur, backup, latest, exec, rollback, f).0;
            SameAt(s, fs, p)
  {
    var s1 := Cleared(fs, backup, f);
    var s2 := SavedCur(s1.0, cur, backup, f);
    assert SameAt(s1.0, fs, p) && SameAt(s2.0, s1.0, p);
    InstallTouchesOnly(s2.0, cur, backup, latest, exec, rollback, f, p);
  }

  lemma InstallTouchesOnly(fs: Files, cur: string, backup: string, latest: string,
                           exec: bool, rollback: bool, f: Faults, p: string)
    requires p != cur && p != backup && p != latest
    ensures SameAt(Installed(fs, cur, backup, latest, exec, rollback, f).0, fs, p)
  {
  }

  predicate SameAt(a: Files, b: Files, p: string) {
    (p in a <==> p in b) && (p in b ==> a[p] == b[p])
  }

  // ---------------------------------------------------------------- the paths

  datatype Platform = Platform(os: string, arch: string)

  predicate Supported(p: Platform) {
    p.os in {"darwin", "linux", "windows"} && p.arch in {"amd64", "386", "arm64", "arm"}
  }

  function Ext(p: Platform): string {
    if p.os == "windows" then ".exe" else ""
  }

  /** Current, backup and latest path of each updated file. */
  function ConfigPaths(project: string, download: string, p: Platform): Paths {
    (project + "config.yaml", download + "config.yaml.bk", download + "config_" + p.os + "_" + p.arch + ".yaml")
  }

  function BinaryPaths(project: string, download: string, name: string, p: Platform): Paths {
    (project + name + Ext(p), download + name + Ext(p) + ".bk", download + name + "-" + p.os + "-" + p.arch + Ext(p))
  }

  /** Two strings that differ at the same distance from their ends differ. */
  lemma DifferFromEnd(a: string, b: string, k: nat)
    requires 0 < k <= |a| && k <= |b| && a[|a| - k] != b[|b| - k]
    ensures a != b
  {
  }

  /** The configuration's paths are distinct for every pair of directories. */
  lemma ConfigPathsDistinct(project: string, download: string, p: Platform)
    requires Supported(p)
    ensures var c := ConfigPaths(project, download, p); DistinctPaths(c.0, c.1, c.2)
  {
    var c := ConfigPaths(project, download, p);
    var tmp := c.1 + ".tmp";
    assert c.0[|c.0| - 1] == 'l' && c.1[|c.1| - 1] == 'k' && c.2[|c.2| - 1] == 'l' && tmp[|tmp| - 1] == 'p';
    assert c.0[|c.0| - 6] == 'g';
    assert c.2[|c.2| - 6] == p.arch[|p.arch| - 1];
    DifferFromEnd(c.0, c.2, 6);
  }

  /** So are the binaries', whose names end in s. */
  lemma BinaryPathsDistinct(project: string, download: string, name: string, p: Platform)
    requires Supported(p) && name in {"btfs", "fs-repo-migrations"}
    ensures var c := BinaryPaths(project, download, name, p); DistinctPaths(c.0, c.1, c.2)
  {
    var c := BinaryPaths(project, download, name, p);
    var tmp, n := c.1 + ".tmp", |Ext(p)|;
    assert c.1[|c.1| - 1] == 'k' && tmp[|tmp| - 1] == 'p';
    assert c.0[|c.0| - n - 1] == 's' && c.2[|c.2| - n - 1] == p.arch[|p.arch| - 1];
    DifferFromEnd(c.0, c.2, n + 1);
    assert n == 4 ==> c.0[|c.0| - 1] == 'e' && c.2[|c.2| - 1] == 'e';
    assert n == 0 ==> c.0[|c.0| - 1] == 's' && c.2[|c.2| - 1] == p.arch[|p.arch| - 1];
  }

  // ---------------------------------------------------------------- the three files together

  function At(a: string, k: nat): char {
    if 0 < k <= |a| then a[|a| - k] else ' '
  }

  /** No step of one file touches a path of the other. */
  predicate Apart(c: Paths, d: Paths) {
    Elsewhere(c.0, d) && Elsewhere(c.1, d) && Elsewhere(c.2, d) && Elsewhere(c.1 + ".tmp", d)
  }

  predicate Elsewhere(p: string, d: Paths) {
    p != d.0 && p != d.1 && p != d.2 && p != d.1 + ".tmp"
  }

  /** How the paths of the configuration end. */
  predicate ConfigEnds(c: Paths) {
    && At(c.0, 1) == 'l' && At(c.1, 1) == 'k' && At(c.1, 4) == 'l' && At(c.2, 1) == 'l'
  }

  /** How the paths of a binary end: `mark` is the last but one letter of its name, n the length of the
      extension and m that of all that follows the name of a download. */
  predicate BinaryEnds(c: Paths, n: nat, m: nat, mark: char) {
    && (At(c.0, 1) == if n == 0 then 's' else 'e') && At(c.0, n + 1) == 's' && At(c.0, n + 2) == mark
    && At(c.1, 1) == 'k' && (At(c.1, 4) == if n == 0 then 's' else 'e') && At(c.1, n + 5) == mark
    && At(c.2, n + 1) in {'4', '6', 'm'} && (n > 0 ==> At(c.2, 1) == 'e') && At(c.2, m + 2) == mark
  }

  lemma ConfigEnding(project: string, download: string, p: Platform)
    ensures ConfigEnds(ConfigPaths(project, download, p))
  {
  }

  function Suffix(p: Platform): nat {
    |Ext(p)| + |p.os| + |p.arch| + 2
  }

  lemma BinaryEnding(project: string, download: string, name: string, p: Platform)
    requires Supported(p) && name in {"btfs", "fs-repo-migrations"}
    ensures BinaryEnds(BinaryPaths(project, download, name, p), |Ext(p)|, Suffix(p), name[|name| - 2])
  {
  }

  lemma TemporariesDiffer(a: string, b: string)
    requires a != b
    ensures a + ".tmp" != b + ".tmp" && At(a + ".tmp", 1) == 'p'
  {
    assert (a + ".tmp")[..|a|] == a && (b + ".tmp")[..|b|] == b;
  }

  lemma ConfigApart(c: Paths, d: Paths, n: nat, m: nat, mark: char)
    requires ConfigEnds(c) && BinaryEnds(d, n, m, mark)
    ensures Apart(c, d) && Apart(d, c)
  {
    TemporariesDiffer(c.1, d.1);
    TemporariesDiffer(d.1, c.1);
  }

  lemma BinariesApart(c: Paths, d: Paths, n: nat, m: nat, mark: char, mark': char)
    requires BinaryEnds(c, n, m, mark) && BinaryEnds(d, n, m, mark') && mark != mark'
    ensures Apart(c, d)
  {
    TemporariesDiffer(c.1, d.1);
    TemporariesDiffer(d.1, c.1);
  }

  /** The files of one installation. */
  type Installation = (Paths, Paths, Paths)

  function AllPaths(project: string, download: string, p: Platform): Installation {
    (ConfigPaths(project, download, p), BinaryPaths(project, download, "btfs", p),
     BinaryPaths(project, download, "fs-repo-migrations", p))
  }

  predicate AllApart(a: Installation) {
    && DistinctPaths(a.0.0, a.0.1, a.0.2) && DistinctPaths(a.1.0, a.1.1, a.1.2) && DistinctPaths(a.2.0, a.2.1, a.2.2)
    && Apart(a.0, a.1) && Apart(a.0, a.2) && Apart(a.1, a.0) && Apart(a.1, a.2) && Apart(a.2, a.0) && Apart(a.2, a.1)
  }

  /** What the paths look like. */
  lemma ConfigOnLinux()
    ensures ConfigPaths("/p/", "/d/", Platform("linux", "arm")) ==
            ("/p/config.yaml", "/d/config.yaml.bk", "/d/config_linux_arm.yaml")
  {
    var c := ConfigPaths("/p/", "/d/", Platform("linux", "arm"));
    assert c.0 == "/p/config.yaml" && c.1 == "/d/config.yaml.bk";
    assert c.2 == "/d/config_linux_arm.yaml";
  }

  lemma BinaryOnWindows()
    ensures BinaryPaths("/p/", "/d/", "btfs", Platform("windows", "386")) ==
            ("/p/btfs.exe", "/d/btfs.exe.bk", "/d/btfs-windows-386.exe")
  {
    var c := BinaryPaths("/p/", "/d/", "btfs", Platform("windows", "386"));
    assert c.0 == "/p/btfs.exe" && c.1 == "/d/btfs.exe.bk";
    assert c.2 == "/d/btfs-windows-386.exe";
  }

  lemma PathsApart(project: string, download: string, p: Platform)
    requires Supported(p)
    ensures AllApart(AllPaths(project, download, p))
  {
    var a, n, m := AllPaths(project, download, p), |Ext(p)|, Suffix(p);
    ConfigPathsDistinct(project, download, p);
    BinaryPathsDistinct(project, download, "btfs", p);
    BinaryPathsDistinct(project, download, "fs-repo-migrations", p);
    ConfigEnding(project, download, p);
    BinaryEnding(project, download, "btfs", p);
    BinaryEnding(project, download, "fs-repo-migrations", p);
    ConfigApart(a.0, a.1, n, m, 'f');
    ConfigApart(a.0, a.2, n, m, 'n');
    BinariesApart(a.1, a.2, n, m, 'f', 'n');
    BinariesApart(a.2, a.1, n, m, 'n', 'f');
  }

  /** `update`: every file is tried, whatever became of the one before. */
  function UpdateAll(fs: Files, a: Installation, f: (Faults, Faults, Faults)): Files {
    var s1 := Update(fs, a.0.0, a.0.1, a.0.2, false, f.0);
    var s2 := Update(s1, a.1.0, a.1.1, a.1.2, true, f.1);
    Update(s2, a.2.0, a.2.1, a.2.2, true, f.2)
  }

  /** `rollback`: so is every rollback. */
  function RollbackAll(fs: Files, a: Installation, g: (Faults, Faults, Faults)): Files {
    var s1 := Rollback(fs, a.0.0, a.0.1, false, g.0);
    var s2 := Rollback(s1, a.1.0, a.1.1, true, g.1);
    Rollback(s2, a.2.0, a.2.1, true, g.2)
  }

  /** The two file systems agree on all paths of a file. */
  predicate SameFile(s: Files, t: Files, c: Paths) {
    SameAt(s, t, c.0) && SameAt(s, t, c.1) && SameAt(s, t, c.2) && SameAt(s, t, c.1 + ".tmp")
  }

  lemma UpdateElsewhere(fs: Files, c: Paths, d: Paths, exec: bool, f: Faults)
    requires Apart(c, d)
    ensures SameFile(Update(fs, d.0, d.1, d.2, exec, f), fs, c)
  {
    StepTouchesOnly(fs, d.0, d.1, d.2, exec, false, f, c.0);
    StepTouchesOnly(fs, d.0, d.1, d.2, exec, false, f, c.1);
    StepTouchesOnly(fs, d.0, d.1, d.2, exec, false, f, c.2);
    StepTouchesOnly(fs, d.0, d.1, d.2, exec, false, f, c.1 + ".tmp");
  }

  lemma RollbackElsewhere(fs: Files, c: Paths, d: Paths, exec: bool, g: Faults)
    requires Apart(c, d)
    ensures SameFile(Rollback(fs, d.0, d.1, exec, g), fs, c)
  {
    StepTouchesOnly(fs, d.0, d.1 + ".tmp", d.1, exec, true, g, c.0);
    StepTouchesOnly(fs, d.0, d.1 + ".tmp", d.1, exec, true, g, c.1);
    StepTouchesOnly(fs, d.0, d.1 + ".tmp", d.1, exec, true, g, c.2);
    StepTouchesOnly(fs, d.0, d.1 + ".tmp", d.1, exec, true, g, c.1 + ".tmp");
  }

  /** Each file goes through the three updates as if it were alone. */
  lemma UpdateAllIsEach(fs: Files, a: Installation, f: (Faults, Faults, Faults))
    returns (s1: Files, s2: Files)
    requires AllApart(a)
    ensures SameFile(s1, fs, a.1) && SameFile(s2, fs, a.2)
    ensures SameFile(UpdateAll(fs, a, f), Update(fs, a.0.0, a.0.1, a.0.2, false, f.0), a.0)
    ensures SameFile(UpdateAll(fs, a, f), Update(s1, a.1.0, a.1.1, a.1.2, true, f.1), a.1)
    ensures UpdateAll(fs, a, f) == Update(s2, a.2.0, a.2.1, a.2.2, true, f.2)
  {
    s1 := Update(fs, a.0.0, a.0.1, a.0.2, false, f.0);
    s2 := Update(s1, a.1.0, a.1.1, a.1.2, true, f.1);
    UpdateElsewhere(fs, a.1, a.0, false, f.0);
    UpdateElsewhere(fs, a.2, a.0, false, f.0);
    UpdateElsewhere(s1, a.0, a.1, true, f.1);
    UpdateElsewhere(s1, a.2, a.1, true, f.1);
    UpdateElsewhere(s2, a.0, a.2, true, f.2);
    UpdateElsewhere(s2, a.1, a.2, true, f.2);
  }

  /** And so through the three rollbacks. */
  lemma RollbackAllIsEach(fs: Files, a: Installation, g: (Faults, Faults, Faults))
    returns (s1: Files, s2: Files)
    requires AllApart(a)
    ensures SameFile(s1, fs, a.1) && SameFile(s2, fs, a.2)
    ensures SameFile(RollbackAll(fs, a, g), Rollback(fs, a.0.0, a.0.1, false, g.0), a.0)
    ensures SameFile(RollbackAll(fs, a, g), Rollback(s1, a.1.0, a.1.1, true, g.1), a.1)
    ensures RollbackAll(fs, a, g) == Rollback(s2, a.2.0, a.2.1, true, g.2)
  {
    s1 := Rollback(fs, a.0.0, a.0.1, false, g.0);
    s2 := Rollback(s1, a.1.0, a.1.1, true, g.1);
    RollbackElsewhere(fs, a.1, a.0, false, g.0);
    RollbackElsewhere(fs, a.2, a.0, false, g.0);
    RollbackElsewhere(s1, a.0, a.1, true, g.1);
    RollbackElsewhere(s1, a.2, a.1, true, g.1);
    RollbackElsewhere(s2, a.0, a.2, true, g.2);
    RollbackElsewhere(s2, a.1, a.2, true, g.2);
  }

  /** A rollback without faults will find this content for the current path. */
  predicate Ready(fs: Files, c: Paths, content: Content) {
    if c.1 in fs then fs[c.1] == content else HasAt(fs, c.0, content)
  }

  /** The update goes well enough for this file to be rolled back. */
  predicate Recoverable(fs: Files, c: Paths, f: Faults) {
    c.0 in fs && SeesFiles(f) && (c.1 in fs ==> !f.remove)
  }

  lemma UpdateReady(fs: Files, c: Paths, exec: bool, f: Faults)
    requires DistinctPaths(c.0, c.1, c.2) && Recoverable(fs, c, f)
    ensures Ready(Update(fs, c.0, c.1, c.2, exec, f), c, fs[c.0])
  {
    UpdateLeaves(fs, c.0, c.1, c.2, exec, f);
  }

  lemma RolledBack(fs: Files, c: Paths, content: Content, exec: bool)
    requires Ready(fs, c, content) && DistinctPaths(c.0, c.1, c.2)
    ensures HasAt(Rollback(fs, c.0, c.1, exec, FAULTLESS), c.0, content)
  {
    CleanRollback(fs, c.0, c.1, exec);
  }

  /** After the three updates, whichever of their renames failed, each file is ready for rollback. */
  lemma UpdateAllReady(fs: Files, a: Installation, f: (Faults, Faults, Faults))
    requires AllApart(a) && Recoverable(fs, a.0, f.0) && Recoverable(fs, a.1, f.1) && Recoverable(fs, a.2, f.2)
    ensures var s := UpdateAll(fs, a, f);
            Ready(s, a.0, fs[a.0.0]) && Ready(s, a.1, fs[a.1.0]) && Ready(s, a.2, fs[a.2.0])
  {
    var s1, s2 := UpdateAllIsEach(fs, a, f);
    UpdateReady(fs, a.0, false, f.0);
    UpdateReady(s1, a.1, true, f.1);
    UpdateReady(s2, a.2, true, f.2);
  }

  /** For every platform and every pair of directories: whatever renames and permission changes of
      the update fail, the rollback puts all three old files back. */
  lemma RollbackAllRestores(fs: Files, project: string, download: string, p: Platform, f: (Faults, Faults, Faults))
    requires Supported(p)
    requires var a := AllPaths(project, download, p);
             Recoverable(fs, a.0, f.0) && Recoverable(fs, a.1, f.1) && Recoverable(fs, a.2, f.2)
    ensures var a := AllPaths(project, download, p);
            var end := RollbackAll(UpdateAll(fs, a, f), a, (FAULTLESS, FAULTLESS, FAULTLESS));
            HasAt(end, a.0.0, fs[a.0.0]) && HasAt(end, a.1.0, fs[a.1.0]) && HasAt(end, a.2.0, fs[a.2.0])
  {
    var a := AllPaths(project, download, p);
    PathsApart(project, download, p);
    UpdateAllReady(fs, a, f);
    RollbackAllFinds(UpdateAll(fs, a, f), a, fs[a.0.0], fs[a.1.0], fs[a.2.0]);
  }

  lemma RollbackAllFinds(s: Files, a: Installation, x: Content, y: Content, z: Content)
    requires AllApart(a) && Ready(s, a.0, x) && Ready(s, a.1, y) && Ready(s, a.2, z)
    ensures var end := RollbackAll(s, a, (FAULTLESS, FAULTLESS, FAULTLESS));
            HasAt(end, a.0.0, x) && HasAt(end, a.1.0, y) && HasAt(end, a.2.0, z)
  {
    var s1, s2 := RollbackAllIsEach(s, a, (FAULTLESS, FAULTLESS, FAULTLESS));
    RolledBack(s, a.0, x, false);
    RolledBack(s1, a.1, y, true);
    RolledBack(s2, a.2, z, true);
  }

  lemma AllBetween(fs: Files, a: Installation, f: (Faults, Faults, Faults))
    requires AllApart(a) && !f.0.statCur && !f.1.statCur && !f.2.statCur
    ensures var s := UpdateAll(fs, a, f); Between(s, a.0, fs) && Between(s, a.1, fs) && Between(s, a.2, fs)
  {
    var s1, s2 := UpdateAllIsEach(fs, a, f);
    UpdateBetween(fs, a.0, false, f.0);
    UpdateBetween(s1, a.1, true, f.1);
    UpdateBetween(s2, a.2, true, f.2);
  }

  lemma AllKept(fs: Files, s: Files, a: Installation, g: (Faults, Faults, Faults))
    requires AllApart(a) && !g.0.statCur && !g.1.statCur && !g.2.statCur
    requires Between(s, a.0, fs) && Between(s, a.1, fs) && Between(s, a.2, fs)
    ensures var end := RollbackAll(s, a, g); BothKept(end, a.0, fs) && BothKept(end, a.1, fs) && BothKept(end, a.2, fs)
  {
    var s1, s2 := RollbackAllIsEach(s, a, g);
    RollbackKeepsBoth(s, a.0, fs, false, g.0);
    RollbackKeepsBoth(s1, a.1, fs, true, g.1);
    RollbackKeepsBoth(s2, a.2, fs, true, g.2);
  }

  /** For every platform and every pair of directories: the update of the three files and the rollback
      after it, whatever fails in either, lose none of the old and none of the new contents, as long as
      current files are seen when they are there. */
  lemma UpdateRollbackAllLosesNothing(fs: Files, project: string, download: string, p: Platform,
                                      f: (Faults, Faults, Faults), g: (Faults, Faults, Faults))
    requires Supported(p) && !f.0.statCur && !f.1.statCur && !f.2.statCur
    requires !g.0.statCur && !g.1.statCur && !g.2.statCur
    ensures var a := AllPaths(project, download, p);
            var end := RollbackAll(UpdateAll(fs, a, f), a, g);
            BothKept(end, a.0, fs) && BothKept(end, a.1, fs) && BothKept(end, a.2, fs)
  {
    var a := AllPaths(project, download, p);
    PathsApart(project, download, p);
    AllBetween(fs, a, f);
    AllKept(fs, UpdateAll(fs, a, f), a, g);
  }
}
