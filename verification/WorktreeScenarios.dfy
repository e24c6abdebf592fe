/**
  Runs of the cleanup whose outcome may surprise: a removal that succeeds with the worktree's files still
  there, one that succeeds with the worktree's name bound, and a creation that fails and leaves its marker
  (core/src/safety/git.rs). Only the random names are left open.
 */
module WorktreeScenarios {
  import opened Wrappers
  import opened FileTree
  import opened Removal
  import opened Worktree

  const ROOT: Inode := 0
  const ENTRY: Inode := 1
  const FILE: Inode := 2
  const MARKER: Inode := 3
  const OTHER: Inode := 4

  const METAS: map<Inode, Meta> := map[
    ROOT := Meta(0, true), ENTRY := Meta(0, true), FILE := Meta(0, false), MARKER := Meta(0, false),
      OTHER := Meta(0, true)]

  /** The worktrees directory binds `names`; the entry holds one file. */
  function Disk(names: map<string, Inode>): Dirs {
    map[ROOT := names, ENTRY := map["file" := FILE], OTHER := map[]]
  }

  ghost function TheScope(): Scope {
    Scope(METAS, {ENTRY}, x => if x == ENTRY then 1 else 0, 0)
  }

  lemma DiskSlots(names: map<string, Inode>)
    ensures forall s {:trigger Bound(Disk(names), s)} :: Bound(Disk(names), s) ==>
              || (s.dir == ROOT && s.name in names && At(Disk(names), s) == names[s.name])
              || (s.dir == ENTRY && At(Disk(names), s) == FILE)
  {
  }

  lemma DirectoriesOf(names: map<string, Inode>)
    ensures forall d :: d in Disk(names) <==> d in METAS && METAS[d].isDir
  {
  }

  lemma DiskIsPlain(names: map<string, Inode>)
    requires forall n :: n in names ==> names[n] in METAS
    ensures Plain(TheScope(), Disk(names)) && Home(TheScope(), Disk(names), map[])
  {
    DiskSlots(names);
    DirectoriesOf(names);
  }

  /** The `n`-th call fails, if any. */
  function WorldWith(random: (nat, set<string>) -> string, n: Option<nat>): World {
    World(k => n == Some(k), random, k => [])
  }

  method Start(random: (nat, set<string>) -> string, n: Option<nat>, names: map<string, Inode>,
               registration: Registration)
    returns (w: Cleanup)
    requires forall k, used {:trigger random(k, used)} :: random(k, used) !in used
    requires forall n :: n in names ==> names[n] in METAS
    ensures fresh(w) && fresh(w.fs) && w.Valid(TheScope()) && !w.removed && w.registration == registration
    ensures w.worktrees == ROOT && w.id == "w" && w.marker == "m" && w.entry == ENTRY
    ensures w.fs.dirs == Disk(names) && w.fs.tick == 0 && w.fs.m == METAS && w.fs.world == WorldWith(random, n)
  {
    DiskIsPlain(names);
    var fs := new FileSystem(WorldWith(random, n), METAS, Disk(names));
    w := new Cleanup(fs, ROOT, "w", "m", ENTRY, registration);
  }

  /** The first removal of `RetryLeavesFiles`: it fails with the files under the quarantine name. */
  method FailedRemoval(random: (nat, set<string>) -> string) returns (w: Cleanup, ok: bool, ghost q: string)
    requires forall k, used {:trigger random(k, used)} :: random(k, used) !in used
    ensures fresh(w) && fresh(w.fs) && w.Valid(TheScope()) && Quiet(w.fs.world, w.fs.tick)
    ensures w.worktrees == ROOT && w.id == "w" && w.marker == "m" && w.entry == ENTRY
    ensures !ok && !w.removed && w.registration == Present && q != "w" && q != "m"
    ensures Parked(w, q) && Bound(w.fs.dirs, Slot(ROOT, "m"))
  {
    w := Start(random, Some(2 + PRUNE), map["w" := ENTRY, "m" := MARKER], Present);
    assert FaultAt(w.fs.world, 2 + PRUNE);
    ok, q := w.RemoveWorktree(TheScope(), true, true);
  }

  /** The entry's file is there, under `q`, and the entry's own name is free. */
  ghost predicate Parked(w: Cleanup, q: string)
    reads w, w.fs
  {
    && !Bound(w.fs.dirs, Slot(ROOT, "w")) && Bound(w.fs.dirs, Slot(ROOT, q)) && At(w.fs.dirs, Slot(ROOT, q)) == ENTRY
    && ENTRY in w.fs.dirs && w.fs.dirs[ENTRY] == map["file" := FILE]
  }

  lemma ParkedIsHome(w: Cleanup, q: string)
    requires Parked(w, q)
    ensures Home(TheScope(), w.fs.dirs, map[])
  {
  }

  /** Pruning fails once after the quarantine; the second removal succeeds, and the file is still there. */
  method RetryLeavesFiles(random: (nat, set<string>) -> string)
    returns (w: Cleanup, first: bool, second: bool, ghost q: string)
    requires forall k, used {:trigger random(k, used)} :: random(k, used) !in used
    ensures !first && second && w.removed && w.registration == Absent
    ensures Parked(w, q) && !Bound(w.fs.dirs, Slot(ROOT, "m"))
  {
    w, first, q := FailedRemoval(random);
    ParkedIsHome(w, q);
    ghost var mid, t := w.fs.dirs, w.fs.tick;
    ghost var q';
    second, q' := w.RemoveWorktree(TheScope(), true, true);
    QuietIsSmooth(w.fs.world, t, w.fs.tick);
    assert SameAt(mid, w.fs.dirs, Slot(ROOT, q));
  }

  /** The hook of a cleanup plants something at the gone worktree's name; the cleanup succeeds and leaves it there. */
  method RemovedWithNameBound(random: (nat, set<string>) -> string) returns (w: Cleanup, ok: bool)
    requires forall k, used {:trigger random(k, used)} :: random(k, used) !in used
    ensures ok && w.removed && w.registration == Absent
    ensures Bound(w.fs.dirs, Slot(ROOT, "w")) && !Bound(w.fs.dirs, Slot(ROOT, "m"))
  {
    w := Start(random, None, map["m" := MARKER], Present);
    var hook := Some(MissingHook(false, PlantEntry(OTHER), None));
    PlantedIsPrunable(w, w.fs.dirs, hook);
    ghost var q;
    ok, q := w.SecureCleanup(TheScope(), true, hook);
    QuietIsSmooth(w.fs.world, 0, w.fs.tick);
  }

  /** What the hook planted holds no worktree, so Git gives up the registration. */
  lemma PlantedIsPrunable(w: Cleanup, ds: Dirs, hook: Option<MissingHook>)
    requires w.worktrees == ROOT && w.id == "w" && ds == Disk(map["m" := MARKER])
    requires hook == Some(MissingHook(false, PlantEntry(OTHER), None))
    ensures w.Passes(hook, ds, Present) && !Bound(ds, w.Here("w"))
  {
    var z := ActOn(hook, ds, w.Here("w"));
    BindChangesOne(ds, w.Here("w"), OTHER);
    assert SameAt(ds, z, Slot(OTHER, ".git"));
  }

  /** The sync after the marker's rename fails: the creation fails and cleans up, and the marker stays. */
  method FailedCreationLeavesMarker(random: (nat, set<string>) -> string) returns (w: Cleanup, ok: bool)
    requires forall k, used {:trigger random(k, used)} :: random(k, used) !in used
    ensures !ok && w.removed && w.registration == Absent
    ensures !Bound(w.fs.dirs, Slot(ROOT, "w")) && Bound(w.fs.dirs, Slot(ROOT, "m"))
  {
    w := Start(random, None, map["w" := ENTRY], Absent);
    DiskIsPlain(map["w" := ENTRY]);
    var reserved := Stage(true, Disk(map["w" := ENTRY]), Absent);
    var added := Stage(true, Disk(map["w" := ENTRY]), Present);
    ok := w.CreateDetached(TheScope(), reserved, true, added, added, added, true, Unsynced, MARKER);
    QuietIsSmooth(w.fs.world, 0, w.fs.tick);
  }
}
