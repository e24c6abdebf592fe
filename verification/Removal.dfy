/**
  Recursive removal of a directory's contents (`remove_directory_contents_inner`,
  core/src/safety/git.rs): every child is renamed to a fresh quarantine name, its identity is checked again, and only
  then is it unlinked. Between the rename and the check the environment may rebind any name that is
  currently quarantined. Every call may fail.
 */
module Removal {
  import opened Wrappers
  import opened FileTree

  /** What the environment does in its turn: it rebinds or unbinds quarantined names. */
  datatype Act = Plant(slot: Slot, inode: Inode) | Remove(slot: Slot)

  /** Whether the n-th call fails, the random names, and what the environment does before the n-th call. */
  datatype World = World(fault: nat -> bool, random: (nat, set<string>) -> string, visit: nat -> seq<Act>)

  /** 128 random bits do not collide with a name in use. */
  ghost predicate NoCollisions(w: World) {
    forall n, names {:trigger w.random(n, names)} :: w.random(n, names) !in names
  }

  /** Nobody interferes. */
  ghost predicate Undisturbed(w: World) {
    forall n :: w.visit(n) == []
  }

  /** From call `t` on nothing fails, and nobody interferes. */
  ghost predicate Quiet(w: World, t: nat) {
    Undisturbed(w) && forall n :: n >= t ==> !w.fault(n)
  }

  /** How many of the first `t` calls fail. */
  ghost function Failures(w: World, t: nat): nat {
    if t == 0 then 0 else Failures(w, t - 1) + if w.fault(t - 1) then 1 else 0
  }

  /** The count stands still exactly while no call fails. */
  lemma {:induction false} FailuresExactly(w: World, start: nat, end: nat)
    requires start <= end
    ensures Failures(w, start) <= Failures(w, end)
    ensures Failures(w, end) == Failures(w, start) <==> forall n: nat :: start <= n < end ==> !w.fault(n)
    decreases end
  {
    if start < end {
      FailuresExactly(w, start, end - 1);
    }
  }

  /** No call from `start` up to `end` fails, and nobody interferes. */
  ghost predicate Smooth(w: World, start: nat, end: nat) {
    Undisturbed(w) && Failures(w, end) == Failures(w, start)
  }

  lemma {:induction false} QuietIsSmooth(w: World, start: nat, end: nat)
    requires Quiet(w, start) && start <= end
    ensures Smooth(w, start, end)
    decreases end
  {
    if start < end {
      QuietIsSmooth(w, start, end - 1);
    }
  }

  /** None of the `n` calls from `t` on, of at most five, fails. */
  ghost predicate NoneOf(w: World, t: nat, n: nat) {
    && (n > 0 ==> !w.fault(t)) && (n > 1 ==> !w.fault(t + 1)) && (n > 2 ==> !w.fault(t + 2))
    && (n > 3 ==> !w.fault(t + 3)) && (n > 4 ==> !w.fault(t + 4))
  }

  lemma NoneOfThree(w: World, t: nat)
    ensures NoneOf(w, t, 3) <==> NoneOf(w, t, 2) && NoneOf(w, t + 2, 1)
  {
  }

  lemma NoneOfFive(w: World, t: nat)
    ensures NoneOf(w, t, 5) <==> NoneOf(w, t, 3) && NoneOf(w, t + 3, 2)
  {
    assert t + 3 + 1 == t + 4;
  }

  /** Of the calls from `start` up to `end` at most the last failed, and none if all went well. */
  ghost predicate StopsAtFault(w: World, start: nat, end: nat, ok: bool) {
    && start <= end && Failures(w, start) <= Failures(w, end)
    && (Failures(w, end) == Failures(w, start) || (!ok && start < end && Failures(w, end - 1) == Failures(w, start)))
  }

  /** Calls that went well, then others. */
  lemma StopsThrough(w: World, start: nat, middle: nat, end: nat, ok: bool)
    requires StopsAtFault(w, start, middle, true) && StopsAtFault(w, middle, end, ok)
    ensures StopsAtFault(w, start, end, ok)
    ensures Smooth(w, start, end) ==> Smooth(w, middle, end)
  {
  }

  /** The environment never acts on the name. */
  ghost predicate Untouched(w: World, s: Slot) {
    forall n: nat, k: nat :: k < |w.visit(n)| ==> w.visit(n)[k].slot != s
  }

  /** The held slots on which the environment never acts are as they were. */
  ghost predicate HeldSpared(w: World, a: Dirs, b: Dirs, held: map<Slot, Inode>) {
    forall s {:trigger SameAt(a, b, s)} :: s in held && Untouched(w, s) ==> SameAt(a, b, s)
  }

  lemma HeldSparedTransitive(w: World, x: Dirs, y: Dirs, z: Dirs, held: map<Slot, Inode>)
    requires HeldSpared(w, x, y, held) && HeldSpared(w, y, z, held)
    ensures HeldSpared(w, x, z, held)
  {
    forall s | s in held && Untouched(w, s) ensures SameAt(x, z, s) {
      assert SameAt(x, y, s) && SameAt(y, z, s);
    }
  }

  class FileSystem {
    const world: World
    const m: map<Inode, Meta>
    var dirs: Dirs
    var tick: nat
    /** The slots whose last binding by the environment is not the expected one. */
    ghost var planted: map<Slot, Inode>

    constructor (world: World, m: map<Inode, Meta>, dirs: Dirs)
      ensures this.world == world && this.m == m && this.dirs == dirs && planted == map[] && tick == 0
    {
      this.world, this.m, this.dirs, tick, planted := world, m, dirs, 0, map[];
    }

    /** The state between two calls of the removal, with `held` quarantined. */
    ghost predicate Ready(c: Scope, held: map<Slot, Inode>)
      reads `dirs, `planted
    {
      c.m == m && Sound(c, dirs, held, planted)
    }

    method Try() returns (ok: bool)
      modifies `tick
      ensures ok == !world.fault(old(tick)) && tick == old(tick) + 1
      ensures Failures(world, tick) == Failures(world, old(tick)) + if ok then 0 else 1
    {
      ok := !world.fault(tick);
      tick := tick + 1;
    }

    /** Two calls in a row. */
    method TryBoth() returns (ok: bool)
      modifies `tick
      ensures StopsAtFault(world, old(tick), tick, ok)
      ensures Failures(world, tick) == Failures(world, old(tick)) + if ok then 0 else 1
      ensures ok <==> NoneOf(world, old(tick), 2)
      ensures ok ==> tick == old(tick) + 2
    {
      ok := Try();
      if ok {
        ok := Try();
      }
    }

    method Stat(s: Slot) returns (r: Option<Inode>)
      modifies `tick
      ensures r == (if Bound(dirs, s) && !world.fault(old(tick)) then Some(At(dirs, s)) else None) &&
        tick == old(tick) + 1
      ensures Failures(world, tick) == Failures(world, old(tick)) + if world.fault(old(tick)) then 1 else 0
    {
      var ok := Try();
      return if ok && Bound(dirs, s) then Some(At(dirs, s)) else None;
    }

    /** One act of the environment: it has no effect except at a held slot. */
    method Perform(ghost c: Scope, held: map<Slot, Inode>, a: Act)
      requires Ready(c, held)
      modifies `dirs, `planted
      ensures Ready(c, held) && SameExcept(old(dirs), dirs, held)
      ensures forall s {:trigger SameAt(old(dirs), dirs, s)} :: s != a.slot ==> SameAt(old(dirs), dirs, s)
    {
      if a.slot in held && a.slot.dir in dirs {
        match a {
          case Plant(s, x) =>
            if x in m {
              PlantIsSound(c, dirs, held, planted, s, x);
              BindChangesOne(dirs, s, x);
              dirs := Bind(dirs, s, x);
              planted := if x == held[s] then planted - {s} else planted[s := x];
            }
          case Remove(s) =>
            RemoveIsSound(c, dirs, held, planted, s);
            UnbindChangesOne(dirs, s);
            dirs := Unbind(dirs, s);
            planted := planted - {s};
        }
      }
    }

    /** The environment's turn: it may act on the held slots and on nothing else. */
    method Interfere(ghost c: Scope, held: map<Slot, Inode>)
      requires Ready(c, held)
      modifies `dirs, `planted
      ensures Ready(c, held) && SameExcept(old(dirs), dirs, held)
      ensures HeldSpared(world, old(dirs), dirs, held)
      ensures Undisturbed(world) ==> dirs == old(dirs) && planted == old(planted)
    {
      var acts := world.visit(tick);
      for k := 0 to |acts|
        invariant Ready(c, held) && SameExcept(old(dirs), dirs, held)
        invariant HeldSpared(world, old(dirs), dirs, held)
        invariant acts == [] ==> dirs == old(dirs) && planted == old(planted)
      {
        ghost var before := dirs;
        Perform(c, held, acts[k]);
        SameExceptTransitive(old(dirs), before, dirs, held);
        HeldSparedTransitive(world, old(dirs), before, dirs, held);
      }
    }

    /** Renames a child on the root's device to a fresh name. */
    method SetAside(ghost c: Scope, dir: Inode, name: string) returns (ok: bool, q: string, id: Inode)
      requires WellFormed(m, dirs) && c.m == m && NoCollisions(world) && dir in dirs && !Foreign(c, dir)
      modifies `tick, `dirs
      ensures StopsAtFault(world, old(tick), tick, ok)
      ensures if ok then
                && name in old(dirs)[dir] && id == old(dirs)[dir][name] && id in m && !Foreign(c, id)
                && q !in old(dirs)[dir] && dirs == Quarantined(old(dirs), dir, name, q, id)
              else dirs == old(dirs)
      ensures Failures(world, tick) == Failures(world, old(tick)) ==>
        name in old(dirs)[dir] && !Foreign(c, old(dirs)[dir][name]) ==> ok
    {
      ok, q, id := false, "", 0;
      var found := Stat(Slot(dir, name));
      if found.None? {
        return;
      }
      id := found.value;
      if m[id].device != m[dir].device {
        return;
      }
      q := world.random(tick, dirs[dir].Keys);
      ok := Try();
      if ok {
        dirs := Quarantined(dirs, dir, name, q, id);
      }
    }

    /** Quarantines a child under a fresh name and lets the environment act; `id` is what must still be there. */
    method QuarantineChild(ghost c: Scope, held: map<Slot, Inode>, dir: Inode, name: string)
      returns (ok: bool, q: string, id: Inode)
      requires Ready(c, held) && NoCollisions(world)
      requires dir in c.tree && dir in dirs && !Foreign(c, dir) && HeldAbove(c, held, dir)
      modifies `tick, `dirs, `planted
      ensures StopsAtFault(world, old(tick), tick, ok)
      ensures Spared(c, old(dirs), dirs, held) && WellFormed(m, dirs) && Standing(dirs, planted)
      ensures ok ==>
        && name in old(dirs)[dir] && id == old(dirs)[dir][name] && q !in old(dirs)[dir] && id in m && !Foreign(c, id)
        && Ready(c, held[Slot(dir, q) := id]) && HeldIn(c, held[Slot(dir, q) := id], dir)
        && During(c, old(dirs), dirs, held[Slot(dir, q) := id], dir, name)
      ensures Smooth(world, old(tick), tick) && Home(c, old(dirs), held) && name in old(dirs)[dir] ==>
        ok && Bound(dirs, Slot(dir, q)) && At(dirs, Slot(dir, q)) == id
      ensures Undisturbed(world) ==> Calm(c, old(dirs), dirs, held) && planted == old(planted)
      ensures HeldSpared(world, old(dirs), dirs, held)
    {
      ghost var before := dirs;
      assert name in dirs[dir] ==> Bound(dirs, Slot(dir, name)) && At(dirs, Slot(dir, name)) == dirs[dir][name];
      ok, q, id := SetAside(c, dir, name);
      if !ok {
        return;
      }
      ghost var after := dirs;
      AsideIsSound(c, before, held, planted, dir, name, q, id);
      Interfere(c, held[Slot(dir, q) := id]);
      assert Slot(dir, name) !in held && q != name;
      AsideAfterTurn(c, before, after, dirs, held, dir, name, q, id);
      HeldSparedTransitive(world, before, after, dirs, held);
      ok := Try();
    }

    /** Opens the quarantined directory `id`, checks that it is the one that was there, and empties it. */
    method EmptyChild(ghost c: Scope, held: map<Slot, Inode>, dir: Inode, ghost name: string, id: Inode,
                      ghost before: Dirs)
      returns (ok: bool)
      requires Ready(c, held) && NoCollisions(world) && HeldIn(c, held, dir) && Slot(dir, name) !in held
      requires dir in c.tree && dir in before && !Foreign(c, dir) && dir in m && id in m && m[id].isDir &&
        !Foreign(c, id)
      requires name in before[dir] && id == before[dir][name] && id in c.tree && c.rank(id) < c.rank(dir)
      requires During(c, before, dirs, held, dir, name)
      modifies this
      ensures StopsAtFault(world, old(tick), tick, ok)
      ensures Spared(c, before, dirs, held) && WellFormed(m, dirs) && Standing(dirs, planted)
      ensures ok ==> Ready(c, held) && During(c, before, dirs, held, dir, name) && dirs[id] == map[]
      ensures Smooth(world, old(tick), tick) && Home(c, before, held) ==> ok
      ensures Undisturbed(world) ==> Calm(c, old(dirs), dirs, held) && planted == old(planted)
      ensures HeldSpared(world, old(dirs), dirs, held)
      decreases c.rank(dir), 0
    {
      ok := TryBoth();
      if !ok {
        return;
      }
      ghost var mid := dirs;
      assert Home(c, before, held) ==> Home(c, mid, held);
      ok := RemoveContents(c, held, id, id, m[dir].device);
      SparedTransitive(c, before, mid, dirs, held);
      if ok {
        DuringAfterRecursion(c, before, mid, dirs, held, dir, name, c.rank(id));
      }
    }

    /** Checks the identity once more and unlinks; a directory must be empty. */
    method UnlinkSlot(slot: Slot, id: Inode) returns (ok: bool)
      requires id in m && WellFormed(m, dirs)
      modifies `tick, `dirs
      ensures StopsAtFault(world, old(tick), tick, ok)
      ensures ok ==> Bound(old(dirs), slot) && At(old(dirs), slot) == id && dirs == Unbind(old(dirs), slot)
      ensures !ok ==> dirs == old(dirs)
      ensures Smooth(world, old(tick), tick) && Bound(old(dirs), slot) && At(old(dirs), slot) == id ==>
        (m[id].isDir ==> old(dirs)[id] == map[]) ==> ok
    {
      var found := Stat(slot);
      if found != Some(id) {
        return false;
      }
      ok := Try();
      if !ok || (m[id].isDir && dirs[id] != map[]) {
        return false;
      }
      dirs := Unbind(dirs, slot);
      return true;
    }

    /** Unlinks a quarantined child that still is the inode it was, after emptying it if it is a directory. */
    method UnlinkChild(ghost c: Scope, held: map<Slot, Inode>, dir: Inode, ghost name: string, q: string, id: Inode,
                       ghost before: Dirs)
      returns (ok: bool)
      requires NoCollisions(world)
      requires dir in c.tree && dir in before && !Foreign(c, dir) && HeldAbove(c, held, dir)
      requires Treelike(c, before, held) && name in before[dir] && id == before[dir][name] && q !in before[dir] &&
        id in m
      requires !Foreign(c, id)
      requires Ready(c, held[Slot(dir, q) := id]) && HeldIn(c, held[Slot(dir, q) := id], dir)
      requires During(c, before, dirs, held[Slot(dir, q) := id], dir, name)
      requires Undisturbed(world) ==> Treelike(c, dirs, held)
      modifies this
      ensures StopsAtFault(world, old(tick), tick, ok)
      ensures Spared(c, before, dirs, held) && WellFormed(m, dirs) && Standing(dirs, planted)
      ensures ok ==>
        && Ready(c, held) && OnlyRemoves(before, dirs, held) && SameAbove(c, before, dirs, held, c.rank(dir))
        && dirs[dir].Keys == before[dir].Keys - {name}
      ensures Smooth(world, old(tick), tick) && Home(c, before, held) ==>
        Bound(old(dirs), Slot(dir, q)) && At(old(dirs), Slot(dir, q)) == id ==> ok
      ensures Undisturbed(world) ==> Calm(c, old(dirs), dirs, held) && planted == old(planted)
      ensures HeldSpared(world, old(dirs), dirs, held)
      decreases c.rank(dir), 1
    {
      var slot := Slot(dir, q);
      ghost var held' := held[slot := id];
      SparedWithoutSlot(c, before, dirs, held, slot, id);
      ok := false;
      var found := Stat(slot);
      if found != Some(id) {
        return;
      }
      ghost var mid := dirs;
      if m[id].isDir {
        assert Bound(before, Slot(dir, name)) && At(before, Slot(dir, name)) == id;
        var emptied := EmptyChild(c, held[slot := id], dir, name, id, before);
        SparedWithoutSlot(c, before, dirs, held, slot, id);
        assert Undisturbed(world) ==> SameAt(mid, dirs, slot);
        assert Undisturbed(world) ==> Calm(c, old(dirs), dirs, held) by {
          if Undisturbed(world) && Bound(mid, slot) && At(mid, slot) == id {
            TreelikeWithoutSlot(c, dirs, held, slot, id);
          }
        }
        if !emptied {
          return;
        }
      }
      ghost var emptied := dirs;
      ok := UnlinkSlot(slot, id);
      HeldSparedTransitive(world, old(dirs), mid, emptied, held);
      if ok {
        ChildIsGone(c, before, emptied, held, planted, dir, name, q, id);
        ChildLeavesHeld(c, emptied, held, dir, name, q, id);
        HeldSparedTransitive(world, old(dirs), emptied, dirs, held);
        assert Undisturbed(world) ==> Calm(c, old(dirs), dirs, held) by {
          if Undisturbed(world) {
            HeldSameTransitive(old(dirs), emptied, dirs, held);
          }
        }
      }
    }

    /** Removes one child of `dir`. */
    method RemoveChild(ghost c: Scope, held: map<Slot, Inode>, dir: Inode, name: string) returns (ok: bool)
      requires Ready(c, held) && NoCollisions(world)
      requires dir in c.tree && dir in dirs && !Foreign(c, dir) && HeldAbove(c, held, dir)
      modifies this
      ensures StopsAtFault(world, old(tick), tick, ok)
      ensures Spared(c, old(dirs), dirs, held) && WellFormed(m, dirs) && Standing(dirs, planted)
      ensures ok ==>
        && Ready(c, held) && OnlyRemoves(old(dirs), dirs, held) && SameAbove(c, old(dirs), dirs, held, c.rank(dir))
        && dirs[dir].Keys == old(dirs)[dir].Keys - {name}
      ensures Smooth(world, old(tick), tick) && Home(c, old(dirs), held) && name in old(dirs)[dir] ==> ok
      ensures Undisturbed(world) ==> Calm(c, old(dirs), dirs, held) && planted == old(planted)
      ensures HeldSpared(world, old(dirs), dirs, held)
      decreases c.rank(dir), 2
    {
      var q, id;
      ok, q, id := QuarantineChild(c, held, dir, name);
      if ok {
        ghost var mid := dirs;
        ok := UnlinkChild(c, held, dir, name, q, id, old(dirs));
        HeldSparedTransitive(world, old(dirs), mid, dirs, held);
        assert Undisturbed(world) ==> Calm(c, old(dirs), dirs, held) by {
          if Undisturbed(world) {
            CalmTransitive(c, old(dirs), mid, dirs, held);
          }
        }
      }
    }

    /** What emptying `dir`, so far, has left of the state `a`. */
    ghost predicate Emptying(c: Scope, a: Dirs, held: map<Slot, Inode>, dir: Inode)
      reads `dirs, `planted
    {
      && Ready(c, held) && dirs.Keys == a.Keys && Spared(c, a, dirs, held) && OnlyRemoves(a, dirs, held)
      && SameAbove(c, a, dirs, held, c.rank(dir)) && HeldSpared(world, a, dirs, held)
    }

    /** Reads the next child and removes it; `a` is the state before the first. */
    method RemoveNext(ghost c: Scope, ghost a: Dirs, held: map<Slot, Inode>, dir: Inode, name: string)
      returns (ok: bool)
      requires Emptying(c, a, held, dir) && NoCollisions(world)
      requires dir in c.tree && dir in dirs && !Foreign(c, dir) && HeldAbove(c, held, dir)
      modifies this
      ensures StopsAtFault(world, old(tick), tick, ok)
      ensures Spared(c, a, dirs, held) && WellFormed(m, dirs) && Standing(dirs, planted)
      ensures ok ==> Emptying(c, a, held, dir) && dirs[dir].Keys == old(dirs)[dir].Keys - {name}
      ensures Smooth(world, old(tick), tick) && Home(c, old(dirs), held) && name in old(dirs)[dir] ==> ok
      ensures Undisturbed(world) ==> Calm(c, old(dirs), dirs, held) && planted == old(planted)
      ensures HeldSpared(world, a, dirs, held)
      decreases c.rank(dir), 3
    {
      ghost var before := dirs;
      ok := Try();
      if ok {
        ok := RemoveChild(c, held, dir, name);
        SparedTransitive(c, a, before, dirs, held);
        HeldSparedTransitive(world, a, before, dirs, held);
        if ok {
          SameAboveTransitive(c, a, before, dirs, held, c.rank(dir));
        }
      }
    }

    /** Removes the children of `dir` one after the other. */
    method RemoveAll(ghost c: Scope, held: map<Slot, Inode>, dir: Inode) returns (ok: bool)
      requires Ready(c, held) && NoCollisions(world)
      requires dir in c.tree && dir in dirs && !Foreign(c, dir) && HeldAbove(c, held, dir)
      modifies this
      ensures StopsAtFault(world, old(tick), tick, ok)
      ensures Spared(c, old(dirs), dirs, held) && WellFormed(m, dirs) && Standing(dirs, planted)
      ensures ok ==> Emptying(c, old(dirs), held, dir) && dirs[dir] == map[]
      ensures Smooth(world, old(tick), tick) && Home(c, old(dirs), held) ==> ok
      ensures Undisturbed(world) ==> Calm(c, old(dirs), dirs, held) && planted == old(planted)
      ensures HeldSpared(world, old(dirs), dirs, held)
      decreases c.rank(dir), 4
    {
      var rest := dirs[dir].Keys;
      while rest != {}
        invariant Emptying(c, old(dirs), held, dir) && dirs[dir].Keys == rest
        invariant StopsAtFault(world, old(tick), tick, true)
        invariant Undisturbed(world) ==> Calm(c, old(dirs), dirs, held) && planted == old(planted)
        decreases |rest|
      {
        var name :| name in rest;
        ghost var before := dirs;
        ok := RemoveNext(c, old(dirs), held, dir, name);
        if Undisturbed(world) {
          CalmTransitive(c, old(dirs), before, dirs, held);
        }
        if !ok {
          return;
        }
        rest := rest - {name};
      }
      ok := true;
    }

    /** Removes everything in the directory opened as `dir`. */
    method RemoveContents(ghost c: Scope, held: map<Slot, Inode>, dir: Inode, expected: Inode, rootDevice: nat)
      returns (ok: bool)
      requires Ready(c, held) && NoCollisions(world) && rootDevice == c.device
      requires dir in c.tree && dir in dirs && HeldAbove(c, held, dir) && expected in m
      modifies this
      ensures StopsAtFault(world, old(tick), tick, ok)
      ensures Spared(c, old(dirs), dirs, held) && WellFormed(m, dirs) && Standing(dirs, planted)
      ensures ok ==>
        && Ready(c, held) && dirs[dir] == map[] && dir == expected && !Foreign(c, dir)
        && OnlyRemoves(old(dirs), dirs, held) && SameAbove(c, old(dirs), dirs, held, c.rank(dir))
      ensures Smooth(world, old(tick), tick) && Home(c, old(dirs), held) && dir == expected && !Foreign(c, dir) ==> ok
      ensures Undisturbed(world) ==> Calm(c, old(dirs), dirs, held) && planted == old(planted)
      ensures HeldSpared(world, old(dirs), dirs, held)
      decreases c.rank(dir), 5
    {
      ok := Try();
      if !ok || dir != expected || m[expected].device != rootDevice {
        return false;
      }
      ok := Try();
      if !ok {
        return;
      }
      ok := RemoveAll(c, held, dir);
      if ok {
        ok := Try();
      }
    }
  }
}
