/**
  Cleanup of a detached worktree (`secure_cleanup_inner` and `remove_worktree`, core/src/safety/git.rs):
  quarantine, prune, recursive removal, unlink and marker removal, over the abstract file system and the
  repository's registration of the worktree's path.
 */
module Worktree {
  import opened Wrappers
  import opened FileTree
  import opened Removal

  /** How the repository lists the worktree's path. */
  datatype Registration = Absent | Present | Locked

  /** What the hook before pruning a missing entry may do to the entry's name and to the registration. */
  datatype EntryAct = LeaveEntry | RemoveEntry | PlantEntry(inode: Inode)

  datatype MissingHook = MissingHook(fails: bool, entry: EntryAct, registration: Option<Registration>)

  predicate Plants(hook: Option<MissingHook>) {
    hook.Some? && hook.value.entry.PlantEntry?
  }

  predicate Refuses(hook: Option<MissingHook>) {
    hook.Some? && hook.value.fails
  }

  /** The directories the hook leaves; `s` is the entry's slot. */
  function ActOn(hook: Option<MissingHook>, ds: Dirs, s: Slot): Dirs {
    if hook.None? then ds
    else
      match hook.value.entry
      case LeaveEntry => ds
      case RemoveEntry => Unbind(ds, s)
      case PlantEntry(x) => Bind(ds, s, x)
  }

  function RegistrationAfter(hook: Option<MissingHook>, r: Registration): Registration {
    if hook.Some? && hook.value.registration.Some? then hook.value.registration.value else r
  }

  /** The only call that fails is call `n`, and nobody interferes. */
  ghost predicate FaultAt(w: World, n: nat) {
    Undisturbed(w) && forall k :: w.fault(k) <==> k == n
  }

  /** Calls between the start of a cleanup that finds its entry and its prune. */
  const PRUNE := 6

  /**
    What a step of a creation, or the hook before or after Git, reports, and the directories and registration it
    leaves.
   */
  datatype Stage = Stage(ok: bool, dirs: Dirs, registration: Registration)

  /**
    How writing the marker ended: before its rename, with a temporary name left if that could not be removed,
    after the rename but without the directory sync, or well.
   */
  datatype MarkerWrite = NotRenamed(left: Option<string>) | Unsynced | Written

  /** The name that a write of `marker` binds, if any. */
  function NameWritten(write: MarkerWrite, marker: string): Option<string> {
    if write.NotRenamed? then write.left else Some(marker)
  }

  function TemporaryOf(write: MarkerWrite): set<string> {
    if write.NotRenamed? && write.left.Some? then {write.left.value} else {}
  }

  /** The states differ at most at the given names of directory `w`. */
  ghost predicate OnlyIn(w: Inode, a: Dirs, b: Dirs, names: set<string>) {
    && a.Keys == b.Keys
    && (forall d :: d in a && d != w ==> a[d] == b[d])
    && (forall n {:trigger SameAt(a, b, Slot(w, n))} :: n !in names ==> SameAt(a, b, Slot(w, n)))
  }

  lemma BindsOnlyIn(w: Inode, a: Dirs, n: string, x: Inode)
    requires w in a
    ensures OnlyIn(w, a, Bind(a, Slot(w, n), x), {n}) && OnlyIn(w, a, Unbind(a, Slot(w, n)), {n})
    ensures Bound(Bind(a, Slot(w, n), x), Slot(w, n)) && At(Bind(a, Slot(w, n), x), Slot(w, n)) == x
    ensures !Bound(Unbind(a, Slot(w, n)), Slot(w, n))
  {
    BindChangesOne(a, Slot(w, n), x);
    UnbindChangesOne(a, Slot(w, n));
  }

  lemma OnlyInTransitive(w: Inode, x: Dirs, y: Dirs, z: Dirs, m: set<string>, n: set<string>)
    requires OnlyIn(w, x, y, m) && OnlyIn(w, y, z, n)
    ensures OnlyIn(w, x, z, m + n)
  {
    forall k | k !in m + n ensures SameAt(x, z, Slot(w, k)) {
      assert SameAt(x, y, Slot(w, k)) && SameAt(y, z, Slot(w, k));
    }
  }

  /**
    Directories other than `w` that lie outside the tree, or on another device, and names of foreign inodes, are
    as they were.
   */
  ghost predicate SparedElsewhere(c: Scope, w: Inode, a: Dirs, b: Dirs) {
    && a.Keys == b.Keys
    && (forall d :: d in a && d != w && (d !in c.tree || Foreign(c, d)) ==> a[d] == b[d])
    && (forall s {:trigger Bound(a, s)} {:trigger Bound(b, s)} :: Bound(a, s) && s.dir != w && Foreign(c, At(a, s)) ==>
          Bound(b, s) && At(b, s) == At(a, s))
  }

  ghost predicate OtherNamesSame(w: Inode, a: Dirs, b: Dirs, names: set<string>) {
    forall n {:trigger SameAt(a, b, Slot(w, n))} :: n !in names ==> SameAt(a, b, Slot(w, n))
  }

  /** In `b` the name `id` is gone, and at most `q` is new. */
  ghost predicate Moved(w: Inode, a: Dirs, b: Dirs, id: string, q: string) {
    !Bound(b, Slot(w, id)) && OtherNamesSame(w, a, b, {id, q})
  }

  lemma MoveFacts(c: Scope, w: Inode, a: Dirs, id: string, q: string, entry: Inode)
    requires Sound(c, a, map[], map[]) && w in a && w !in c.tree && entry in c.m
    requires Bound(a, Slot(w, id)) && q != id && !Bound(a, Slot(w, q))
    ensures var b := Quarantined(a, w, id, q, entry);
      && Sound(c, b, map[Slot(w, q) := entry], map[]) && SparedElsewhere(c, w, a, b) && Moved(w, a, b, id, q)
      && Bound(b, Slot(w, q)) && At(b, Slot(w, q)) == entry
      && (Home(c, a, map[]) ==> Home(c, b, map[]))
  {
    var mid := Unbind(a, Slot(w, id));
    var b := Quarantined(a, w, id, q, entry);
    UnbindChangesOne(a, Slot(w, id));
    BindChangesOne(mid, Slot(w, q), entry);
    forall s | s != Slot(w, id) && s != Slot(w, q) ensures SameAt(a, b, s) {
      assert SameAt(a, mid, s) && SameAt(mid, b, s);
    }
    assert SameAt(mid, b, Slot(w, id));
    forall s | Bound(b, s) ensures s == Slot(w, q) || (Bound(a, s) && At(a, s) == At(b, s)) {
      assert s != Slot(w, id);
      assert s != Slot(w, q) ==> SameAt(a, b, s);
    }
    forall s | Bound(a, s) && s.dir != w ensures Bound(b, s) && At(b, s) == At(a, s) {
      assert SameAt(a, b, s);
    }
  }

  /** Neither the environment at the quarantine name nor a removal in the tree disturbs the rest. */
  lemma AfterRemoval(c: Scope, w: Inode, a: Dirs, b: Dirs, z: Dirs, id: string, q: string, entry: Inode)
    requires SparedElsewhere(c, w, a, b) && Moved(w, a, b, id, q) && Spared(c, b, z, map[Slot(w, q) := entry])
    requires w in a && w !in c.tree && q != id
    ensures SparedElsewhere(c, w, a, z) && Moved(w, a, z, id, q)
  {
    var held := map[Slot(w, q) := entry];
    forall d | d in a && d != w && OffLimits(c, d) ensures a[d] == z[d] {
      SparedDirectory(c, b, z, held, d);
    }
    forall n | n !in {id, q} ensures SameAt(a, z, Slot(w, n)) {
      assert SameAt(a, b, Slot(w, n)) && SameAt(b, z, Slot(w, n));
    }
    assert SameAt(b, z, Slot(w, id));
  }

  /** The environment's turn at the quarantine name spares everything else. */
  lemma HookSpares(c: Scope, w: Inode, a: Dirs, b: Dirs, q: string, entry: Inode)
    requires SameExcept(a, b, map[Slot(w, q) := entry]) && w !in c.tree
    ensures Spared(c, a, b, map[Slot(w, q) := entry])
    ensures entry in a && entry != w ==> a[entry] == b[entry]
    ensures Home(c, a, map[]) ==> Home(c, b, map[])
  {
    var held := map[Slot(w, q) := entry];
    forall s | s !in held && Bound(a, s) ensures Bound(b, s) && At(b, s) == At(a, s) {
      assert SameAt(a, b, s);
    }
    forall s | s !in held && Bound(b, s) ensures Bound(a, s) && At(b, s) == At(a, s) {
      assert SameAt(a, b, s);
    }
    if entry in a && entry != w {
      UnheldDirSame(a, b, held, entry);
    }
  }

  /** With a name outside the tree held and nothing standing there, nothing needs to be held. */
  lemma HeldOutside(c: Scope, w: Inode, ds: Dirs, q: string, entry: Inode, planted: map<Slot, Inode>)
    requires Sound(c, ds, map[Slot(w, q) := entry], planted) && w !in c.tree
    ensures planted == map[] ==> Plain(c, ds)
    ensures Bound(ds, Slot(w, q)) && At(ds, Slot(w, q)) == entry ==> planted == map[]
  {
    if Bound(ds, Slot(w, q)) && At(ds, Slot(w, q)) == entry {
      assert forall s :: s !in planted;
    }
  }

  /** Well formed and treelike, with nothing held. */
  ghost predicate Plain(c: Scope, ds: Dirs) {
    Sound(c, ds, map[], map[])
  }

  lemma UnbindKeepsPlain(ds: Dirs, s: Slot)
    requires s.dir in ds
    ensures forall c {:trigger Plain(c, ds)} :: Plain(c, ds) ==> Plain(c, Unbind(ds, s))
  {
    forall c | Plain(c, ds) ensures Plain(c, Unbind(ds, s)) {
      var none: map<Slot, Inode> := map[];
      RemoveIsSound(c, ds, none, none, s);
      assert none - {s} == none;
    }
  }

  /** A name outside the tree leads anywhere without harm. */
  lemma BindKeepsPlain(c: Scope, ds: Dirs, s: Slot, x: Inode)
    requires Plain(c, ds) && s.dir in ds && s.dir !in c.tree && x in c.m
    ensures Plain(c, Bind(ds, s, x)) && (Home(c, ds, map[]) ==> Home(c, Bind(ds, s, x), map[]))
  {
    var b := Bind(ds, s, x);
    BindChangesOne(ds, s, x);
    forall t | Bound(b, t) && t != s ensures Bound(ds, t) && At(ds, t) == At(b, t) {
      assert SameAt(ds, b, t);
    }
  }

  lemma StillSpared(c: Scope, w: Inode, a: Dirs, z: Dirs, y: Dirs, names: set<string>)
    requires SparedElsewhere(c, w, a, z) && OnlyIn(w, z, y, names)
    ensures SparedElsewhere(c, w, a, y)
  {
    forall s | Bound(a, s) && s.dir != w && Foreign(c, At(a, s)) ensures Bound(y, s) && At(y, s) == At(a, s) {
      assert z[s.dir] == y[s.dir];
    }
  }

  /** Unlinking the quarantine name and the marker disturbs nothing else. */
  lemma AfterUnlink(c: Scope, w: Inode, a: Dirs, z: Dirs, y: Dirs, id: string, q: string, marker: string)
    requires SparedElsewhere(c, w, a, z) && OtherNamesSame(w, a, z, {id, q}) && OnlyIn(w, z, y, {q, marker})
    ensures SparedElsewhere(c, w, a, y) && OtherNamesSame(w, a, y, {id, marker, q})
  {
    StillSpared(c, w, a, z, y, {q, marker});
    forall n | n !in {id, marker, q} ensures SameAt(a, y, Slot(w, n)) {
      assert SameAt(a, z, Slot(w, n)) && SameAt(z, y, Slot(w, n));
    }
  }

  class Cleanup {
    const fs: FileSystem
    const worktrees: Inode
    const id: string
    const marker: string
    const entry: Inode
    /** Whether this capability has finished, and the registration of its path: locked or not. */
    var removed: bool
    var registration: Registration

    constructor (fs: FileSystem, worktrees: Inode, id: string, marker: string, entry: Inode, registration: Registration)
      ensures this.fs == fs && this.worktrees == worktrees && this.id == id && this.marker == marker &&
        this.entry == entry
      ensures !removed && this.registration == registration
    {
      this.fs, this.worktrees, this.id, this.marker, this.entry := fs, worktrees, id, marker, entry;
      this.removed, this.registration := false, registration;
    }

    function Here(name: string): Slot {
      Slot(worktrees, name)
    }

    ghost predicate Valid(c: Scope)
      reads fs`dirs, fs`planted
    {
      fs.Ready(c, map[]) && fs.planted == map[] && Fixed(c)
    }

    /** What no step of a cleanup changes. */
    ghost predicate Fixed(c: Scope)
      reads fs`dirs
    {
      && c.m == fs.m && NoCollisions(fs.world)
      && entry in c.tree && entry in fs.dirs && entry in c.m && c.m[entry].device == c.device
      && worktrees in fs.dirs && worktrees !in c.tree && id != marker
    }

    /** Git keeps an unlocked registration only while the path holds a worktree. */
    predicate Alive(ds: Dirs) {
      Bound(ds, Here(id)) && Bound(ds, Slot(At(ds, Here(id)), ".git"))
    }

    method Prune() returns (ok: bool)
      modifies `registration, fs`tick
      ensures ok == !fs.world.fault(old(fs.tick)) && fs.tick == old(fs.tick) + 1
      ensures registration ==
        (if ok && old(registration) == Present && !Alive(fs.dirs) then Absent else old(registration))
      ensures StopsAtFault(fs.world, old(fs.tick), fs.tick, ok)
    {
      ok := fs.Try();
      if ok && registration == Present && !Alive(fs.dirs) {
        registration := Absent;
      }
    }

    /** Pruning clears such a registration. */
    predicate Prunable(r: Registration, ds: Dirs) {
      r == Absent || (r == Present && !Alive(ds))
    }

    /** Prunes, then asks whether the path is still listed. */
    method Unregister() returns (ok: bool)
      modifies `registration, fs`tick
      ensures fs.tick > old(fs.tick)
      ensures ok ==> registration == Absent
      ensures fs.world.fault(old(fs.tick)) ==> !ok && registration == old(registration)
      ensures Smooth(fs.world, old(fs.tick), fs.tick) ==> (ok <==> Prunable(old(registration), fs.dirs))
      ensures StopsAtFault(fs.world, old(fs.tick), fs.tick, ok)
    {
      ok := Prune();
      if ok {
        ok := fs.Try();
        ok := ok && registration == Absent;
      }
    }

    method RemoveMarker() returns (ok: bool)
      requires worktrees in fs.dirs
      modifies fs`tick, fs`dirs
      ensures fs.tick > old(fs.tick)
      ensures fs.dirs == (if ok then Unbind(old(fs.dirs), Here(marker)) else old(fs.dirs))
      ensures Smooth(fs.world, old(fs.tick), fs.tick) ==> ok
      ensures StopsAtFault(fs.world, old(fs.tick), fs.tick, ok)
    {
      ok := fs.Try();
      if ok {
        fs.dirs := Unbind(fs.dirs, Here(marker));
      }
    }

    /** The hook's turn, before a missing entry is pruned. */
    method ActMissing(hook: Option<MissingHook>) returns (ok: bool)
      requires worktrees in fs.dirs
      modifies `registration, fs`dirs
      ensures ok == !Refuses(hook)
      ensures fs.dirs == ActOn(hook, old(fs.dirs), Here(id)) &&
        registration == RegistrationAfter(hook, old(registration))
      ensures OnlyIn(worktrees, old(fs.dirs), fs.dirs, {id})
      ensures !Bound(old(fs.dirs), Here(id)) ==> (Bound(fs.dirs, Here(id)) <==> Plants(hook))
    {
      if hook.None? {
        return true;
      }
      BindsOnlyIn(worktrees, fs.dirs, id, if Plants(hook) then hook.value.entry.inode else 0);
      match hook.value.entry {
        case LeaveEntry =>
        case RemoveEntry =>
          fs.dirs := Unbind(fs.dirs, Here(id));
        case PlantEntry(x) =>
          fs.dirs := Bind(fs.dirs, Here(id), x);
      }
      if hook.value.registration.Some? {
        registration := hook.value.registration.value;
      }
      return !hook.value.fails;
    }

    /** The last steps: the marker goes if asked, and the capability is spent. */
    method Finish(removeMarker: bool) returns (ok: bool)
      requires worktrees in fs.dirs && !removed && id != marker
      modifies `removed, fs`tick, fs`dirs
      ensures fs.tick >= old(fs.tick) && removed == ok && (!ok ==> fs.dirs == old(fs.dirs))
      ensures ok ==> fs.dirs == (if removeMarker then Unbind(old(fs.dirs), Here(marker)) else old(fs.dirs))
      ensures OnlyIn(worktrees, old(fs.dirs), fs.dirs, {marker})
      ensures forall c {:trigger Plain(c, fs.dirs)} :: Plain(c, old(fs.dirs)) ==> Plain(c, fs.dirs)
      ensures ok && removeMarker ==> !Bound(fs.dirs, Here(marker))
      ensures Smooth(fs.world, old(fs.tick), fs.tick) ==> ok
      ensures StopsAtFault(fs.world, old(fs.tick), fs.tick, ok)
    {
      if removeMarker {
        BindsOnlyIn(worktrees, fs.dirs, marker, 0);
        UnbindKeepsPlain(fs.dirs, Here(marker));
        var unmarked := RemoveMarker();
        if !unmarked {
          return false;
        }
      }
      removed := true;
      return true;
    }

    /** The registration that the hook leaves goes away with a prune, and the hook does not refuse. */
    predicate Passes(hook: Option<MissingHook>, ds: Dirs, r: Registration) {
      !Refuses(hook) && Prunable(RegistrationAfter(hook, r), ActOn(hook, ds, Here(id)))
    }

    /** The branch for an entry that is already gone. */
    method CleanMissing(removeMarker: bool, hook: Option<MissingHook>) returns (ok: bool)
      requires worktrees in fs.dirs && id != marker && !removed && !Bound(fs.dirs, Here(id))
      modifies this, fs`tick, fs`dirs
      ensures fs.tick >= old(fs.tick) && removed == ok
      ensures !ok || !removeMarker ==> SameAt(old(fs.dirs), fs.dirs, Here(marker))
      ensures ok ==> registration == Absent && (removeMarker ==> !Bound(fs.dirs, Here(marker)))
      ensures ok ==> (Bound(fs.dirs, Here(id)) <==> Plants(hook))
      ensures OnlyIn(worktrees, old(fs.dirs), fs.dirs, {id, marker})
      ensures hook.None? ==> forall c {:trigger Plain(c, fs.dirs)} :: Plain(c, old(fs.dirs)) ==> Plain(c, fs.dirs)
      ensures Smooth(fs.world, old(fs.tick), fs.tick) ==> (ok <==> Passes(hook, old(fs.dirs), old(registration)))
      ensures StopsAtFault(fs.world, old(fs.tick), fs.tick, ok)
    {
      ok := ActMissing(hook);
      ghost var mid := fs.dirs;
      assert SameAt(old(fs.dirs), mid, Here(marker));
      if !ok {
        return false;
      }
      ok := Unregister();
      if !ok {
        return false;
      }
      ok := Finish(removeMarker);
      OnlyInTransitive(worktrees, old(fs.dirs), mid, fs.dirs, {id}, {marker});
      assert SameAt(mid, fs.dirs, Here(id));
    }

    ghost predicate EntryAt(ds: Dirs, name: string) {
      Bound(ds, Here(name)) && At(ds, Here(name)) == entry
    }

    /** Something else sits at the entry's name. */
    ghost predicate Impostor(ds: Dirs) {
      Bound(ds, Here(id)) && At(ds, Here(id)) != entry
    }

    /**
      Only the names `id`, `q` and the marker moved, nothing foreign was touched, and `q` at most received the
      entry, unless the environment acted there.
     */
    ghost predicate Preserved(c: Scope, a: Dirs, b: Dirs, q: string) {
      && SparedElsewhere(c, worktrees, a, b) && OtherNamesSame(worktrees, a, b, {id, marker, q})
      && (q != id && Untouched(fs.world, Here(q)) && Bound(b, Here(q)) ==> EntryAt(b, q))
    }

    /** The quarantined entry, held while the environment may act on its name. */
    ghost function Outer(q: string): map<Slot, Inode> {
      map[Here(q) := entry]
    }

    /** The entry sits under `q` with all its contents. */
    ghost predicate Parked(a: Dirs, b: Dirs, q: string) {
      EntryAt(b, q) && !Bound(b, Here(id)) && entry in a && entry in b && b[entry] == a[entry]
    }

    ghost predicate Emptied(ds: Dirs) {
      entry in ds && ds[entry] == map[]
    }

    /** The rename, and a turn of the environment at the new name. */
    method Park(ghost c: Scope, q: string)
      requires Valid(c) && EntryAt(fs.dirs, id) && q != id && q != marker && !Bound(fs.dirs, Here(q))
      modifies fs`dirs, fs`planted
      ensures fs.Ready(c, Outer(q)) && Fixed(c) && Parking(c, old(fs.dirs), fs.dirs, q)
      ensures Undisturbed(fs.world) || EntryAt(fs.dirs, q) ==> fs.planted == map[]
    {
      ghost var a := fs.dirs;
      MoveFacts(c, worktrees, fs.dirs, id, q, entry);
      fs.dirs := Quarantined(fs.dirs, worktrees, id, q, entry);
      ghost var b := fs.dirs;
      EntryKept(a, q);
      fs.Interfere(c, map[Here(q) := entry]);
      HookSpares(c, worktrees, b, fs.dirs, q, entry);
      AfterRemoval(c, worktrees, a, b, fs.dirs, id, q, entry);
      HeldOutside(c, worktrees, fs.dirs, q, entry, fs.planted);
      assert Untouched(fs.world, Here(q)) ==> SameAt(b, fs.dirs, Here(q));
    }

    lemma EntryKept(a: Dirs, q: string)
      requires entry in a && entry != worktrees
      ensures var b := Quarantined(a, worktrees, id, q, entry); entry in b && b[entry] == a[entry]
    {
    }

    /**
      Renames the entry to an unused name, unless it is no longer the directory this capability made, and checks
      it there.
     */
    method QuarantineEntry(ghost c: Scope) returns (ok: bool, q: string)
      requires Valid(c) && Bound(fs.dirs, Here(id))
      modifies fs`tick, fs`dirs, fs`planted
      ensures fs.Ready(c, Outer(q)) && Fixed(c) && q != id && q != marker && !Bound(old(fs.dirs), Here(q))
      ensures if EntryAt(old(fs.dirs), id) && NoneOf(fs.world, old(fs.tick), 2) then
                Parking(c, old(fs.dirs), fs.dirs, q)
              else fs.dirs == old(fs.dirs) && fs.planted == map[]
      ensures ok <==>
        EntryAt(old(fs.dirs), id) && NoneOf(fs.world, old(fs.tick), 3) && EntryAt(fs.dirs, q)
      ensures Smooth(fs.world, old(fs.tick), fs.tick) && EntryAt(old(fs.dirs), id) ==> ok
      ensures Undisturbed(fs.world) || ok ==> fs.planted == map[]
      ensures old(fs.tick) <= fs.tick && (ok ==> fs.tick == old(fs.tick) + 3)
      ensures StopsAtFault(fs.world, old(fs.tick), fs.tick, ok)
    {
      ok := false;
      q := fs.world.random(fs.tick, fs.dirs[worktrees].Keys + {id, marker});
      if At(fs.dirs, Here(id)) != entry {
        return;
      }
      var renamed := fs.TryBoth();
      if !renamed {
        return;
      }
      Park(c, q);
      assert NoneOf(fs.world, old(fs.tick), 3) <==> !fs.world.fault(fs.tick);
      var found := fs.Stat(Here(q));
      ok := found == Some(entry);
    }

    /** The entry, with its contents, went from `id` to `q`, and stays there unless the environment acts on `q`. */
    ghost predicate Parking(c: Scope, a: Dirs, b: Dirs, q: string) {
      && SparedElsewhere(c, worktrees, a, b) && Moved(worktrees, a, b, id, q)
      && entry in a && entry in b && b[entry] == a[entry]
      && (Untouched(fs.world, Here(q)) ==> EntryAt(b, q))
      && (Home(c, a, map[]) ==> Home(c, b, map[]))
    }

    /** Unlinks the emptied entry under its quarantine name, if it is still there, and finishes. */
    method FinishPresent(ghost c: Scope, removeMarker: bool, ghost a: Dirs, q: string) returns (ok: bool)
      requires WellFormed(fs.m, fs.dirs) && worktrees in fs.dirs && worktrees in a && worktrees !in c.tree &&
        entry in fs.dirs
      requires !removed && id != marker && q != id && q != marker && entry != worktrees && fs.dirs[entry] == map[]
      requires SparedElsewhere(c, worktrees, a, fs.dirs) && Moved(worktrees, a, fs.dirs, id, q)
      requires Untouched(fs.world, Here(q)) ==> EntryAt(fs.dirs, q)
      modifies `removed, fs`tick, fs`dirs
      ensures fs.tick >= old(fs.tick) && removed == ok && Emptied(fs.dirs) && !Bound(fs.dirs, Here(id))
      ensures ok ==> !Bound(fs.dirs, Here(q)) && (removeMarker ==> !Bound(fs.dirs, Here(marker)))
      ensures fs.dirs == old(fs.dirs) || EntryAt(old(fs.dirs), q)
      ensures ok ==> EntryAt(old(fs.dirs), q)
      ensures !ok || !removeMarker ==> SameAt(a, fs.dirs, Here(marker))
      ensures Preserved(c, a, fs.dirs, q)
      ensures Plain(c, old(fs.dirs)) ==> Plain(c, fs.dirs)
      ensures Smooth(fs.world, old(fs.tick), fs.tick) && EntryAt(old(fs.dirs), q) ==> ok
      ensures StopsAtFault(fs.world, old(fs.tick), fs.tick, ok)
    {
      ghost var z := fs.dirs;
      assert SameAt(a, z, Here(marker));
      BindsOnlyIn(worktrees, z, q, entry);
      UnbindKeepsPlain(z, Here(q));
      ok := fs.UnlinkSlot(Here(q), entry);
      if !ok {
        return;
      }
      ghost var y := fs.dirs;
      ok := Finish(removeMarker);
      OnlyInTransitive(worktrees, z, y, fs.dirs, {q}, {marker});
      assert SameAt(z, fs.dirs, Here(id)) && SameAt(y, fs.dirs, Here(q));
      assert SameAt(z, y, Here(marker));
      AfterUnlink(c, worktrees, a, z, fs.dirs, id, q, marker);
    }

    /** Empties the quarantined entry, unlinks it and finishes; `a` is the state before it was quarantined. */
    method ClearQuarantined(ghost c: Scope, removeMarker: bool, ghost a: Dirs, q: string) returns (ok: bool)
      requires fs.Ready(c, Outer(q)) && fs.planted == map[] && Fixed(c) && EntryAt(fs.dirs, q)
      requires !removed && worktrees in a && q != id && q != marker
      requires SparedElsewhere(c, worktrees, a, fs.dirs) && Moved(worktrees, a, fs.dirs, id, q)
      modifies `removed, fs
      ensures fs.tick >= old(fs.tick) && removed == ok && !Bound(fs.dirs, Here(id))
      ensures ok ==>
        !Bound(fs.dirs, Here(q)) && Emptied(fs.dirs) && fs.planted == map[] &&
          (removeMarker ==> !Bound(fs.dirs, Here(marker)))
      ensures !ok || !removeMarker ==> SameAt(a, fs.dirs, Here(marker))
      ensures !ok && Untouched(fs.world, Here(q)) ==> EntryAt(fs.dirs, q) || Emptied(fs.dirs)
      ensures Preserved(c, a, fs.dirs, q) && Standing(fs.dirs, fs.planted)
      ensures Undisturbed(fs.world) ==> Plain(c, fs.dirs) && fs.planted == map[]
      ensures Smooth(fs.world, old(fs.tick), fs.tick) && Home(c, old(fs.dirs), map[]) ==> ok
      ensures StopsAtFault(fs.world, old(fs.tick), fs.tick, ok)
    {
      ghost var b := fs.dirs;
      ok := fs.RemoveContents(c, map[Here(q) := entry], entry, entry, fs.m[entry].device);
      AfterRemoval(c, worktrees, a, b, fs.dirs, id, q, entry);
      assert Untouched(fs.world, Here(q)) || Undisturbed(fs.world) ==> SameAt(b, fs.dirs, Here(q));
      if ok {
        HeldOutside(c, worktrees, fs.dirs, q, entry, fs.planted);
        ok := FinishPresent(c, removeMarker, a, q);
      } else {
        assert SameAt(a, fs.dirs, Here(marker));
      }
    }

    /** The branch for an entry that is there: quarantine, prune, empty, unlink. `q` is its quarantine name. */
    method CleanPresent(ghost c: Scope, removeMarker: bool) returns (ok: bool, ghost q: string)
      requires Valid(c) && !removed && Bound(fs.dirs, Here(id)) && registration != Locked
      modifies this, fs
      ensures fs.tick >= old(fs.tick) && removed == ok && q != id && q != marker && !Bound(old(fs.dirs), Here(q))
      ensures ok ==>
        && registration == Absent && !Bound(fs.dirs, Here(id)) && !Bound(fs.dirs, Here(q)) && Emptied(fs.dirs)
        && (removeMarker ==> !Bound(fs.dirs, Here(marker)))
      ensures ok ==> fs.planted == map[] && At(old(fs.dirs), Here(id)) == entry
      ensures !ok || !removeMarker ==> SameAt(old(fs.dirs), fs.dirs, Here(marker))
      ensures !ok && At(old(fs.dirs), Here(id)) == entry && Untouched(fs.world, Here(q)) ==>
        EntryAt(fs.dirs, id) || EntryAt(fs.dirs, q) || Emptied(fs.dirs)
      ensures At(old(fs.dirs), Here(id)) != entry ==>
        !ok && fs.dirs == old(fs.dirs) && registration == old(registration)
      ensures !NoneOf(fs.world, old(fs.tick), 2) ==>
        !ok && fs.dirs == old(fs.dirs) && registration == old(registration)
      ensures Preserved(c, old(fs.dirs), fs.dirs, q) && Standing(fs.dirs, fs.planted)
      ensures Undisturbed(fs.world) ==> Plain(c, fs.dirs) && fs.planted == map[]
      ensures Smooth(fs.world, old(fs.tick), fs.tick) ==>
        At(old(fs.dirs), Here(id)) == entry && Home(c, old(fs.dirs), map[]) ==> ok
      ensures FaultAt(fs.world, old(fs.tick) + PRUNE - 3) && At(old(fs.dirs), Here(id)) == entry ==>
        !ok && registration == old(registration) && Parked(old(fs.dirs), fs.dirs, q) && Quiet(fs.world, fs.tick)
      ensures StopsAtFault(fs.world, old(fs.tick), fs.tick, ok)
    {
      ghost var a := fs.dirs;
      var name;
      ok, name := QuarantineEntry(c);
      q := name;
      HeldOutside(c, worktrees, fs.dirs, q, entry, fs.planted);
      assert SameAt(a, fs.dirs, Here(marker));
      if !ok {
        return;
      }
      ok := Unregister();
      if !ok {
        return;
      }
      ok := ClearQuarantined(c, removeMarker, a, name);
    }

    /** `CleanMissing`, with what it leaves alone. */
    method CleanGone(ghost c: Scope, removeMarker: bool, hook: Option<MissingHook>) returns (ok: bool)
      requires Valid(c) && !removed && !Bound(fs.dirs, Here(id))
      modifies this, fs`tick, fs`dirs
      ensures StopsAtFault(fs.world, old(fs.tick), fs.tick, ok) && removed == ok
      ensures !ok || !removeMarker ==> SameAt(old(fs.dirs), fs.dirs, Here(marker))
      ensures ok ==> registration == Absent && (removeMarker ==> !Bound(fs.dirs, Here(marker)))
      ensures ok ==> (Bound(fs.dirs, Here(id)) <==> Plants(hook))
      ensures OnlyIn(worktrees, old(fs.dirs), fs.dirs, {id, marker}) && Preserved(c, old(fs.dirs), fs.dirs, id)
      ensures fs.planted == map[] && (hook.None? ==> Valid(c))
      ensures Smooth(fs.world, old(fs.tick), fs.tick) ==> (ok <==> Passes(hook, old(fs.dirs), old(registration)))
    {
      ghost var before := fs.dirs;
      ok := CleanMissing(removeMarker, hook);
      StillSpared(c, worktrees, before, before, fs.dirs, {id, marker});
      assert Plain(c, before);
      assert hook.None? ==> Plain(c, fs.dirs);
    }

    /** The cleanup of an entry that is there, or is gone. */
    method CleanEntry(ghost c: Scope, removeMarker: bool, hook: Option<MissingHook>) returns (ok: bool, ghost q: string)
      requires Valid(c) && !removed && registration != Locked
      modifies this, fs
      ensures StopsAtFault(fs.world, old(fs.tick), fs.tick, ok) && removed == ok
      ensures ok ==> (Emptied(fs.dirs) <==> Bound(old(fs.dirs), Here(id)) || old(Emptied(fs.dirs)))
      ensures ok ==>
        && registration == Absent && (removeMarker ==> !Bound(fs.dirs, Here(marker)))
        && (Bound(fs.dirs, Here(id)) <==> Plants(hook) && !Bound(old(fs.dirs), Here(id)))
      ensures ok && Bound(old(fs.dirs), Here(id)) ==>
        EntryAt(old(fs.dirs), id) && Emptied(fs.dirs) && fs.planted == map[] && !Bound(fs.dirs, Here(q))
      ensures !ok || !removeMarker ==> SameAt(old(fs.dirs), fs.dirs, Here(marker))
      ensures !ok && EntryAt(old(fs.dirs), id) && Untouched(fs.world, Here(q)) ==>
        EntryAt(fs.dirs, id) || EntryAt(fs.dirs, q) || Emptied(fs.dirs)
      ensures Impostor(old(fs.dirs)) || (Bound(old(fs.dirs), Here(id)) && !NoneOf(fs.world, old(fs.tick), 2)) ==>
        !ok && fs.dirs == old(fs.dirs) && registration == old(registration)
      ensures Preserved(c, old(fs.dirs), fs.dirs, q) && Standing(fs.dirs, fs.planted)
      ensures q == id || !Bound(old(fs.dirs), Here(q))
      ensures Undisturbed(fs.world) && hook.None? ==> Valid(c)
      ensures !Bound(old(fs.dirs), Here(id)) ==> OnlyIn(worktrees, old(fs.dirs), fs.dirs, {id, marker})
      ensures Smooth(fs.world, old(fs.tick), fs.tick) ==>
        && (!Bound(old(fs.dirs), Here(id)) ==> (ok <==> Passes(hook, old(fs.dirs), old(registration))))
        && (EntryAt(old(fs.dirs), id) && Home(c, old(fs.dirs), map[]) ==> ok)
      ensures FaultAt(fs.world, old(fs.tick) + PRUNE - 3) && EntryAt(old(fs.dirs), id) ==>
        !ok && registration == old(registration) && Parked(old(fs.dirs), fs.dirs, q) && Quiet(fs.world, fs.tick)
    {
      q := id;
      if Bound(fs.dirs, Here(id)) {
        ok, q := CleanPresent(c, removeMarker);
      } else {
        ok := CleanGone(c, removeMarker, hook);
      }
    }

    /** The checks before anything is touched: the root's identity, the registration, and a look at the entry. */
    method Inspect() returns (ok: bool)
      modifies fs`tick
      ensures StopsAtFault(fs.world, old(fs.tick), fs.tick, ok)
      ensures ok <==> NoneOf(fs.world, old(fs.tick), 3) && registration != Locked
      ensures Failures(fs.world, fs.tick) == Failures(fs.world, old(fs.tick)) ==> (ok <==> registration != Locked)
      ensures ok ==> fs.tick == old(fs.tick) + 3
    {
      ok := fs.TryBoth();
      if !ok || registration == Locked {
        return false;
      }
      ok := fs.Try();
    }

    /** The cleanup of a capability that has not finished. */
    method CleanUnfinished(ghost c: Scope, removeMarker: bool, hook: Option<MissingHook>)
      returns (ok: bool, ghost q: string)
      requires Valid(c) && !removed
      modifies this, fs
      ensures removed == ok
      ensures ok ==> (Emptied(fs.dirs) <==> Bound(old(fs.dirs), Here(id)) || old(Emptied(fs.dirs)))
      ensures ok ==>
        && registration == Absent && (removeMarker ==> !Bound(fs.dirs, Here(marker)))
        && (Bound(fs.dirs, Here(id)) <==> Plants(hook) && !Bound(old(fs.dirs), Here(id)))
      ensures ok && Bound(old(fs.dirs), Here(id)) ==>
        EntryAt(old(fs.dirs), id) && Emptied(fs.dirs) && fs.planted == map[] && !Bound(fs.dirs, Here(q))
      ensures !ok || !removeMarker ==> SameAt(old(fs.dirs), fs.dirs, Here(marker))
      ensures !ok && EntryAt(old(fs.dirs), id) && Untouched(fs.world, Here(q)) ==>
        EntryAt(fs.dirs, id) || EntryAt(fs.dirs, q) || Emptied(fs.dirs)
      ensures (old(registration) == Locked || Impostor(old(fs.dirs))) ==>
        !ok && fs.dirs == old(fs.dirs) && registration == old(registration)
      ensures !NoneOf(fs.world, old(fs.tick), 3) ==>
        !ok && fs.dirs == old(fs.dirs) && registration == old(registration)
      ensures Bound(old(fs.dirs), Here(id)) && !NoneOf(fs.world, old(fs.tick), 5) ==>
        !ok && fs.dirs == old(fs.dirs) && registration == old(registration)
      ensures Preserved(c, old(fs.dirs), fs.dirs, q) && Standing(fs.dirs, fs.planted)
      ensures q == id || !Bound(old(fs.dirs), Here(q))
      ensures Undisturbed(fs.world) && hook.None? ==> Valid(c)
      ensures !Bound(old(fs.dirs), Here(id)) ==> OnlyIn(worktrees, old(fs.dirs), fs.dirs, {id, marker})
      ensures Smooth(fs.world, old(fs.tick), fs.tick) && old(registration) != Locked ==>
        && (!Bound(old(fs.dirs), Here(id)) ==> (ok <==> Passes(hook, old(fs.dirs), old(registration))))
        && (EntryAt(old(fs.dirs), id) && Home(c, old(fs.dirs), map[]) ==> ok)
      ensures FaultAt(fs.world, old(fs.tick) + PRUNE) ==>
        old(registration) != Locked && EntryAt(old(fs.dirs), id) ==>
        !ok && registration == old(registration) && Parked(old(fs.dirs), fs.dirs, q) && Quiet(fs.world, fs.tick)
      ensures StopsAtFault(fs.world, old(fs.tick), fs.tick, ok)
    {
      q := id;
      ok := Inspect();
      if ok {
        ghost var inspected := fs.tick;
        ok, q := CleanEntry(c, removeMarker, hook);
        StopsThrough(fs.world, old(fs.tick), inspected, fs.tick, ok);
        NoneOfFive(fs.world, old(fs.tick));
      }
    }

    /** `secure_cleanup_inner`. */
    method SecureCleanup(ghost c: Scope, removeMarker: bool, hook: Option<MissingHook>)
      returns (ok: bool, ghost q: string)
      requires Valid(c)
      modifies this, fs
      ensures old(removed) ==> ok && removed && fs.dirs == old(fs.dirs) && registration == old(registration)
      ensures !old(removed) ==> removed == ok
      ensures ok && !old(removed) ==> (Emptied(fs.dirs) <==> Bound(old(fs.dirs), Here(id)) || old(Emptied(fs.dirs)))
      ensures ok && !old(removed) ==>
        && registration == Absent && (removeMarker ==> !Bound(fs.dirs, Here(marker)))
        && (Bound(fs.dirs, Here(id)) <==> Plants(hook) && !Bound(old(fs.dirs), Here(id)))
      ensures ok && !old(removed) && Bound(old(fs.dirs), Here(id)) ==>
        EntryAt(old(fs.dirs), id) && Emptied(fs.dirs) && fs.planted == map[] && !Bound(fs.dirs, Here(q))
      ensures !ok || !removeMarker ==> SameAt(old(fs.dirs), fs.dirs, Here(marker))
      ensures !ok && EntryAt(old(fs.dirs), id) && Untouched(fs.world, Here(q)) ==>
        EntryAt(fs.dirs, id) || EntryAt(fs.dirs, q) || Emptied(fs.dirs)
      ensures !old(removed) && (old(registration) == Locked || Impostor(old(fs.dirs))) ==>
        !ok && fs.dirs == old(fs.dirs) && registration == old(registration)
      ensures !old(removed) && !NoneOf(fs.world, old(fs.tick), 3) ==>
        !ok && fs.dirs == old(fs.dirs) && registration == old(registration)
      ensures !old(removed) && Bound(old(fs.dirs), Here(id)) && !NoneOf(fs.world, old(fs.tick), 5) ==>
        !ok && fs.dirs == old(fs.dirs) && registration == old(registration)
      ensures Preserved(c, old(fs.dirs), fs.dirs, q) && Standing(fs.dirs, fs.planted)
      ensures q == id || !Bound(old(fs.dirs), Here(q))
      ensures Undisturbed(fs.world) && hook.None? ==> Valid(c)
      ensures !Bound(old(fs.dirs), Here(id)) ==> OnlyIn(worktrees, old(fs.dirs), fs.dirs, {id, marker})
      ensures Smooth(fs.world, old(fs.tick), fs.tick) && !old(removed) && old(registration) != Locked ==>
        && (!Bound(old(fs.dirs), Here(id)) ==> (ok <==> Passes(hook, old(fs.dirs), old(registration))))
        && (EntryAt(old(fs.dirs), id) && Home(c, old(fs.dirs), map[]) ==> ok)
      ensures FaultAt(fs.world, old(fs.tick) + PRUNE) ==>
        !old(removed) && old(registration) != Locked && EntryAt(old(fs.dirs), id) ==>
        !ok && registration == old(registration) && Parked(old(fs.dirs), fs.dirs, q) && Quiet(fs.world, fs.tick)
      ensures StopsAtFault(fs.world, old(fs.tick), fs.tick, ok)
    {
      if removed {
        return true, id;
      }
      ok, q := CleanUnfinished(c, removeMarker, hook);
    }

    /** The marker is read and compared, and the registration listed. */
    method CheckMarker(markerMatches: bool) returns (ok: bool)
      modifies fs`tick
      ensures StopsAtFault(fs.world, old(fs.tick), fs.tick, ok)
      ensures ok <==>
        NoneOf(fs.world, old(fs.tick), 2) && Bound(fs.dirs, Here(marker)) && markerMatches && registration != Locked
      ensures Failures(fs.world, fs.tick) == Failures(fs.world, old(fs.tick)) ==>
        (ok <==> Bound(fs.dirs, Here(marker)) && markerMatches && registration != Locked)
      ensures ok ==> fs.tick == old(fs.tick) + 2
    {
      ok := fs.Try();
      if !ok || !Bound(fs.dirs, Here(marker)) || !markerMatches {
        return false;
      }
      ok := fs.Try();
      if ok {
        ok := registration != Locked;
      }
    }

    /** The path is not registered: only the marker is left to remove, if the entry is gone. */
    method FinishUnregistered(ghost c: Scope) returns (ok: bool)
      requires Valid(c) && !removed && registration == Absent
      modifies `removed, fs`tick, fs`dirs
      ensures StopsAtFault(fs.world, old(fs.tick), fs.tick, ok) && removed == ok && Valid(c)
      ensures ok ==> !Bound(old(fs.dirs), Here(id)) && !Bound(fs.dirs, Here(id)) && !Bound(fs.dirs, Here(marker))
      ensures !ok ==> fs.dirs == old(fs.dirs)
      ensures OnlyIn(worktrees, old(fs.dirs), fs.dirs, {marker}) && Preserved(c, old(fs.dirs), fs.dirs, id)
      ensures fs.world.fault(old(fs.tick)) ==> !ok
      ensures Smooth(fs.world, old(fs.tick), fs.tick) && !Bound(old(fs.dirs), Here(id)) ==> ok
    {
      ghost var before := fs.dirs;
      ok := fs.Try();
      if !ok || Bound(fs.dirs, Here(id)) {
        return false;
      }
      ok := Finish(true);
      StillSpared(c, worktrees, before, before, fs.dirs, {marker});
      assert SameAt(before, fs.dirs, Here(id)) && Plain(c, before) && Plain(c, fs.dirs);
    }

    /**
      `remove_worktree`: the handle must match the capability and the stored marker must match both.
      `handleMatches` and `markerMatches` are those comparisons.
     */
    method RemoveWorktree(ghost c: Scope, handleMatches: bool, markerMatches: bool) returns (ok: bool, ghost q: string)
      requires Valid(c)
      modifies this, fs
      ensures old(removed) ==>
        ok == handleMatches && removed && fs.dirs == old(fs.dirs) && registration == old(registration)
      ensures !old(removed) ==> removed == ok
      ensures ok && !old(removed) ==>
        && handleMatches && markerMatches && Bound(old(fs.dirs), Here(marker))
        && registration == Absent && !Bound(fs.dirs, Here(id)) && !Bound(fs.dirs, Here(marker))
      ensures ok && Bound(old(fs.dirs), Here(id)) && !old(removed) ==> EntryAt(old(fs.dirs), id)
      ensures ok && !old(removed) ==> (Emptied(fs.dirs) <==> Bound(old(fs.dirs), Here(id)) || old(Emptied(fs.dirs)))
      ensures !Bound(old(fs.dirs), Here(id)) ==> OnlyIn(worktrees, old(fs.dirs), fs.dirs, {id, marker})
      ensures !ok ==> SameAt(old(fs.dirs), fs.dirs, Here(marker))
      ensures !handleMatches || !markerMatches || !Bound(old(fs.dirs), Here(marker)) ==>
        fs.dirs == old(fs.dirs) && registration == old(registration)
      ensures !old(removed) && old(registration) == Absent && Bound(old(fs.dirs), Here(id)) ==>
        !ok && fs.dirs == old(fs.dirs)
      ensures !old(removed) && old(registration) == Locked ==> !ok && fs.dirs == old(fs.dirs)
      ensures Smooth(fs.world, old(fs.tick), fs.tick) ==>
        handleMatches && markerMatches && Bound(old(fs.dirs), Here(marker)) ==>
        (old(registration) == Absent && !Bound(old(fs.dirs), Here(id)) ==> ok) &&
        (old(registration) == Present && !Impostor(old(fs.dirs)) && Home(c, old(fs.dirs), map[]) ==> ok)
      ensures FaultAt(fs.world, old(fs.tick) + 2 + PRUNE) ==>
        handleMatches && markerMatches && Bound(old(fs.dirs), Here(marker)) && !old(removed) ==>
          old(registration) == Present && EntryAt(old(fs.dirs), id) ==>
          !ok && registration == Present && Parked(old(fs.dirs), fs.dirs, q) && Quiet(fs.world, fs.tick)
      ensures !old(removed) && !NoneOf(fs.world, old(fs.tick), 3) ==>
        !ok && fs.dirs == old(fs.dirs) && registration == old(registration)
      ensures Undisturbed(fs.world) ==> Valid(c)
      ensures Preserved(c, old(fs.dirs), fs.dirs, q) && Standing(fs.dirs, fs.planted)
      ensures StopsAtFault(fs.world, old(fs.tick), fs.tick, ok)
    {
      ok, q := false, id;
      if !handleMatches {
        return;
      }
      if removed {
        return true, q;
      }
      var checked := CheckMarker(markerMatches);
      ghost var read := fs.tick;
      NoneOfThree(fs.world, old(fs.tick));
      if !checked {
        return;
      }
      if registration == Absent {
        ok := FinishUnregistered(c);
      } else {
        ok, q := SecureCleanup(c, true, None);
      }
      StopsThrough(fs.world, old(fs.tick), read, fs.tick, ok);
    }

    /** The name and the registration are gone. */
    ghost predicate Gone()
      reads this, fs
    {
      registration == Absent && !Bound(fs.dirs, Here(id))
    }

    /** Nothing stands in the way of a cleanup. */
    ghost predicate Removable(c: Scope)
      reads this, fs
    {
      registration != Locked && !Impostor(fs.dirs) && Home(c, fs.dirs, map[])
    }

    /** Dropping the reservation: while armed it cleans up. */
    method DropReservation(ghost c: Scope, armed: bool)
      requires Valid(c) && Undisturbed(fs.world)
      modifies this, fs
      ensures Valid(c) && SameAt(old(fs.dirs), fs.dirs, Here(marker))
      ensures BoundNamesKept(old(fs.dirs), fs.dirs)
      ensures !armed ==> fs.dirs == old(fs.dirs) && removed == old(removed) && registration == old(registration)
      ensures !old(removed) && (old(registration) == Locked || Impostor(old(fs.dirs))) ==>
        !removed && fs.dirs == old(fs.dirs) && registration == old(registration)
      ensures armed && removed && !old(removed) ==> Gone()
      ensures fs.tick >= old(fs.tick) && Failures(fs.world, old(fs.tick)) <= Failures(fs.world, fs.tick)
      ensures armed && old(Removable(c)) && Smooth(fs.world, old(fs.tick), fs.tick) ==> removed
    {
      if armed {
        ghost var q;
        var ok;
        ok, q := SecureCleanup(c, false, None);
      }
    }

    /** A failed step: an explicit cleanup, then the drop, which tries again if that failed. */
    method Abandon(ghost c: Scope)
      requires Valid(c) && Undisturbed(fs.world) && !removed
      modifies this, fs
      ensures Valid(c) && SameAt(old(fs.dirs), fs.dirs, Here(marker)) && BoundNamesKept(old(fs.dirs), fs.dirs)
      ensures removed ==> Gone()
      ensures old(registration) == Locked || Impostor(old(fs.dirs)) ==>
        !removed && fs.dirs == old(fs.dirs) && registration == old(registration)
      ensures fs.tick >= old(fs.tick) && Failures(fs.world, old(fs.tick)) <= Failures(fs.world, fs.tick)
      ensures old(Removable(c)) && Smooth(fs.world, old(fs.tick), fs.tick) ==> removed
    {
      ghost var q;
      var ok;
      ok, q := SecureCleanup(c, false, None);
      ghost var mid := fs.dirs;
      assert SameAt(old(fs.dirs), mid, Here(marker));
      assert BoundNamesKept(old(fs.dirs), mid);
      DropReservation(c, !ok);
      assert SameAt(mid, fs.dirs, Here(marker));
      BoundNamesStayKept(old(fs.dirs), mid, fs.dirs);
    }

    /** Apart from `id`, the names in use are as they were. */
    ghost predicate BoundNamesKept(a: Dirs, b: Dirs) {
      forall n {:trigger SameAt(a, b, Slot(worktrees, n))} ::
        n != id && Bound(a, Slot(worktrees, n)) ==> SameAt(a, b, Slot(worktrees, n))
    }

    lemma BoundNamesStayKept(x: Dirs, y: Dirs, z: Dirs)
      requires BoundNamesKept(x, y) && BoundNamesKept(y, z)
      ensures BoundNamesKept(x, z)
    {
      forall n | n != id && Bound(x, Slot(worktrees, n)) ensures SameAt(x, z, Slot(worktrees, n)) {
        assert SameAt(x, y, Slot(worktrees, n)) && SameAt(y, z, Slot(worktrees, n));
      }
    }

    /** What a step left, whether it succeeded or not. */
    ghost predicate Left(c: Scope, s: Stage)
      reads fs
    {
      c.m == fs.m && Plain(c, s.dirs) && !Bound(s.dirs, Here(marker))
    }

    /** The identity checks of the live paths; `paths` is what the other directories' checks say. */
    predicate Live(paths: bool, ds: Dirs) {
      paths && Bound(ds, Here(id)) && At(ds, Here(id)) == entry
    }

    /** Nothing in this state stands in the way of a cleanup. */
    ghost predicate Harmless(c: Scope, s: Stage) {
      s.registration != Locked && !Impostor(s.dirs) && Home(c, s.dirs, map[])
    }

    /** The step at which a creation stopped, or the last one. */
    function StoppedAt(before: Stage, beforePaths: bool, added: Stage, filled: Stage, after: Stage): Stage {
      if !before.ok || !Live(beforePaths, before.dirs) then before
      else if !added.ok then added
      else if !filled.ok then filled
      else after
    }

    /** Every step up to the marker went well. */
    predicate ReachesMarker(before: Stage, beforePaths: bool, added: Stage, filled: Stage, after: Stage,
                            afterPaths: bool)
    {
      && before.ok && Live(beforePaths, before.dirs) && added.ok && filled.ok
      && after.ok && Live(afterPaths, after.dirs)
    }

    method ValidateLivePaths(paths: bool) returns (ok: bool)
      ensures ok == Live(paths, fs.dirs)
    {
      ok := paths && Bound(fs.dirs, Here(id)) && At(fs.dirs, Here(id)) == entry;
    }

    method Take(s: Stage)
      modifies `registration, fs`dirs
      ensures fs.dirs == s.dirs && registration == s.registration
    {
      fs.dirs, registration := s.dirs, s.registration;
    }

    ghost predicate TemporaryStays(write: MarkerWrite, ds: Dirs) {
      forall n {:trigger Slot(worktrees, n)} :: n in TemporaryOf(write) ==> Bound(ds, Slot(worktrees, n))
    }

    /** What a write of the marker leaves. */
    function Named(write: MarkerWrite, ds: Dirs, node: Inode): Dirs {
      if NameWritten(write, marker).None? then ds else Bind(ds, Here(NameWritten(write, marker).value), node)
    }

    /** `write_marker`: only a write that fails before its rename leaves the name as it was. */
    method WriteMarker(ghost c: Scope, write: MarkerWrite, node: Inode) returns (ok: bool)
      requires Valid(c) && node in fs.m && TemporaryOf(write) !! {id, marker}
      modifies fs`dirs
      ensures Valid(c) && ok == write.Written? && fs.dirs == Named(write, old(fs.dirs), node)
      ensures OnlyIn(worktrees, old(fs.dirs), fs.dirs, {marker} + TemporaryOf(write)) &&
        SameAt(old(fs.dirs), fs.dirs, Here(id))
      ensures Bound(fs.dirs, Here(marker)) <==> Bound(old(fs.dirs), Here(marker)) || !write.NotRenamed?
      ensures TemporaryStays(write, fs.dirs)
      ensures Home(c, old(fs.dirs), map[]) ==> Home(c, fs.dirs, map[])
    {
      ghost var unmarked := fs.dirs;
      var name := NameWritten(write, marker);
      if name.Some? {
        BindsOnlyIn(worktrees, fs.dirs, name.value, node);
        BindKeepsPlain(c, fs.dirs, Here(name.value), node);
        fs.dirs := Bind(fs.dirs, Here(name.value), node);
      }
      assert SameAt(unmarked, fs.dirs, Here(id)) && (write.NotRenamed? ==> SameAt(unmarked, fs.dirs, Here(marker)));
      ok := write.Written?;
    }

    /**
      Giving up at `s` leaves nothing of the entry if nothing stood in the way, and everything if it was not
      ours to touch.
     */
    ghost predicate GaveUp(c: Scope, s: Stage, temporary: set<string>, quiet: bool)
      reads this, fs
    {
      && (removed ==> Gone())
      && (quiet && Harmless(c, s) ==> removed)
      && (s.registration == Locked || Impostor(s.dirs) ==>
           !removed && OnlyIn(worktrees, s.dirs, fs.dirs, {marker} + temporary))
    }

    /** A hook or a check failed (`dropped`: only the drop cleans up), or a step of Git did. */
    method GiveUp(ghost c: Scope, ghost s: Stage, dropped: bool)
      requires Valid(c) && Undisturbed(fs.world) && !removed && Left(c, s)
      requires fs.dirs == s.dirs && registration == s.registration
      modifies this, fs
      ensures GaveUp(c, s, {}, Smooth(fs.world, old(fs.tick), fs.tick)) && !Bound(fs.dirs, Here(marker))
    {
      assert Harmless(c, s) ==> Removable(c);
      if dropped {
        DropReservation(c, true);
      } else {
        Abandon(c);
      }
      assert SameAt(s.dirs, fs.dirs, Here(marker));
    }

    /** The last step: the marker, and the cleanup if writing it failed. */
    method Mark(ghost c: Scope, ghost s: Stage, write: MarkerWrite, node: Inode) returns (ok: bool)
      requires Valid(c) && Undisturbed(fs.world) && !removed && node in fs.m && Left(c, s) && EntryAt(s.dirs, id)
      requires fs.dirs == s.dirs && registration == s.registration && TemporaryOf(write) !! {id, marker}
      modifies this, fs
      ensures ok == write.Written?
      ensures ok ==> !removed && EntryAt(fs.dirs, id) && registration == s.registration
      ensures ok ==> fs.dirs == Bind(s.dirs, Here(marker), node)
      ensures Bound(fs.dirs, Here(marker)) <==> !write.NotRenamed?
      ensures TemporaryStays(write, fs.dirs)
      ensures !ok ==> GaveUp(c, s, TemporaryOf(write), Smooth(fs.world, old(fs.tick), fs.tick))
    {
      ok := WriteMarker(c, write, node);
      if !ok {
        ghost var marked := fs.dirs;
        assert Harmless(c, s) ==> Removable(c);
        Abandon(c);
        assert SameAt(marked, fs.dirs, Here(marker));
        assert forall n :: n in TemporaryOf(write) ==> SameAt(marked, fs.dirs, Slot(worktrees, n));
      }
    }

    /**
      From the reservation to the marker. `before` and `after` are what the hooks around Git left and
      `beforePaths` and `afterPaths` what the path checks behind them say; `added` and `filled` are what
      `git worktree add` and the materialization left.
     */
    method CreateDetached(ghost c: Scope, before: Stage, beforePaths: bool, added: Stage, filled: Stage,
                          after: Stage, afterPaths: bool, write: MarkerWrite, node: Inode)
      returns (ok: bool)
      requires Valid(c) && Undisturbed(fs.world) && !removed && node in fs.m
      requires Left(c, before) && Left(c, added) && Left(c, filled) && Left(c, after) &&
        TemporaryOf(write) !! {id, marker}
      modifies this, fs
      ensures ok <==> ReachesMarker(before, beforePaths, added, filled, after, afterPaths) && write.Written?
      ensures ok ==>
        !removed && EntryAt(fs.dirs, id) && fs.dirs == Bind(after.dirs, Here(marker), node) &&
          registration == after.registration
      ensures Bound(fs.dirs, Here(marker)) <==>
        ReachesMarker(before, beforePaths, added, filled, after, afterPaths) && !write.NotRenamed?
      ensures ReachesMarker(before, beforePaths, added, filled, after, afterPaths) ==>
        TemporaryStays(write, fs.dirs)
      ensures !ok ==>
        GaveUp(c, StoppedAt(before, beforePaths, added, filled, after), TemporaryOf(write),
          Smooth(fs.world, old(fs.tick), fs.tick))
    {
      ok := false;
      Take(before);
      var live := ValidateLivePaths(beforePaths);
      if !before.ok || !live {
        GiveUp(c, before, true);
        return;
      }
      Take(added);
      if !added.ok {
        GiveUp(c, added, false);
        return;
      }
      Take(filled);
      if !filled.ok {
        GiveUp(c, filled, false);
        return;
      }
      Take(after);
      live := ValidateLivePaths(afterPaths);
      if !after.ok || !live {
        GiveUp(c, after, true);
        return;
      }
      ok := Mark(c, after, write, node);
    }
  }
}
