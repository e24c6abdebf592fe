/**
  Directories as maps from names to inodes, and what a removal may do to them
  (core/src/safety/git.rs). An inode stands for a file identity: its device and number.
 */
module FileTree {
  type Inode = nat

  datatype Meta = Meta(device: nat, isDir: bool)

  type Dirs = map<Inode, map<string, Inode>>

  /** A name in a directory. */
  datatype Slot = Slot(dir: Inode, name: string)

  predicate Bound(ds: Dirs, s: Slot) {
    s.dir in ds && s.name in ds[s.dir]
  }

  function At(ds: Dirs, s: Slot): Inode
    requires Bound(ds, s)
  {
    ds[s.dir][s.name]
  }

  function Bind(ds: Dirs, s: Slot, x: Inode): Dirs {
    if s.dir !in ds then ds
    else
      var entries: map<string, Inode> := ds[s.dir][s.name := x];
      ds[s.dir := entries]
  }

  function Unbind(ds: Dirs, s: Slot): Dirs {
    if s.dir !in ds then ds
    else
      var entries: map<string, Inode> := map n | n in ds[s.dir] && n != s.name :: ds[s.dir][n];
      ds[s.dir := entries]
  }

  /** Both states give the slot the same inode, or neither binds it. */
  predicate SameAt(a: Dirs, b: Dirs, s: Slot) {
    (Bound(a, s) <==> Bound(b, s)) && (Bound(a, s) ==> At(a, s) == At(b, s))
  }

  ghost predicate WellFormed(m: map<Inode, Meta>, ds: Dirs) {
    && (forall d :: d in ds <==> d in m && m[d].isDir)
    && (forall s {:trigger Bound(ds, s)} :: Bound(ds, s) ==> At(ds, s) in m)
  }

  /** The directories a removal may enter, ranked so that children rank below parents, and its device. */
  datatype Scope = Scope(m: map<Inode, Meta>, tree: set<Inode>, rank: Inode -> nat, device: nat)

  ghost predicate Foreign(c: Scope, x: Inode) {
    x in c.m && c.m[x].device != c.device
  }

  /** Apart from the held slots, directories of the tree lead only down the tree. */
  ghost predicate Treelike(c: Scope, ds: Dirs, held: map<Slot, Inode>) {
    forall s {:trigger Bound(ds, s)} :: Bound(ds, s) && s.dir in c.tree && s !in held && At(ds, s) in ds ==>
      At(ds, s) in c.tree && c.rank(At(ds, s)) < c.rank(s.dir)
  }

  /** The held slots lie outside the tree or in directories of the tree above `dir`. */
  ghost predicate HeldAbove(c: Scope, held: map<Slot, Inode>, dir: Inode) {
    forall s :: s in held && s.dir in c.tree ==> c.rank(s.dir) > c.rank(dir)
  }

  /** Every substituted inode sits where the environment put it. */
  ghost predicate Standing(ds: Dirs, planted: map<Slot, Inode>) {
    forall s :: s in planted ==> Bound(ds, s) && At(ds, s) == planted[s]
  }

  /** The substitutions are at held slots and differ from what those slots should hold. */
  ghost predicate AtHeld(planted: map<Slot, Inode>, held: map<Slot, Inode>) {
    forall s :: s in planted ==> s in held && planted[s] != held[s]
  }

  /** A directory that a removal may not enter. */
  ghost predicate OffLimits(c: Scope, d: Inode) {
    d !in c.tree || Foreign(c, d)
  }

  /**
    Apart from the held slots, nothing outside the tree and nothing on another device is touched: such
    directories keep their names, and a name of a foreign inode stays, whatever directory it is in.
   */
  ghost predicate Spared(c: Scope, a: Dirs, b: Dirs, held: map<Slot, Inode>) {
    && a.Keys == b.Keys
    && (forall s {:trigger SameAt(a, b, s)} :: s !in held && OffLimits(c, s.dir) ==> SameAt(a, b, s))
    && (forall s {:trigger Bound(a, s)} {:trigger Bound(b, s)} :: Bound(a, s) && s !in held && Foreign(c, At(a, s)) ==>
          Bound(b, s) && At(b, s) == At(a, s))
  }

  /** No name appears except at the held slots. */
  ghost predicate OnlyRemoves(a: Dirs, b: Dirs, held: map<Slot, Inode>) {
    forall s {:trigger Bound(b, s)} :: Bound(b, s) && s !in held ==> Bound(a, s) && At(a, s) == At(b, s)
  }

  /** Directories ranked above `limit` change at most at the held slots. */
  ghost predicate SameAbove(c: Scope, a: Dirs, b: Dirs, held: map<Slot, Inode>, limit: nat) {
    forall s {:trigger SameAt(a, b, s)} :: s !in held && c.rank(s.dir) > limit ==> SameAt(a, b, s)
  }

  /** Apart from the held slots, the tree names no inode of another device. */
  ghost predicate Home(c: Scope, ds: Dirs, held: map<Slot, Inode>) {
    forall s {:trigger Bound(ds, s)} :: Bound(ds, s) && s.dir in c.tree && s !in held ==> !Foreign(c, At(ds, s))
  }

  /** The held slots are as they were. */
  ghost predicate HeldSame(a: Dirs, b: Dirs, held: map<Slot, Inode>) {
    forall s {:trigger SameAt(a, b, s)} :: s in held ==> SameAt(a, b, s)
  }

  // ----- consequences -----

  /** From `a` to `b` no held slot moved, and even without holding them the tree is one. */
  ghost predicate Calm(c: Scope, a: Dirs, b: Dirs, held: map<Slot, Inode>) {
    HeldSame(a, b, held) && Treelike(c, b, held)
  }

  lemma CalmTransitive(c: Scope, x: Dirs, y: Dirs, z: Dirs, held: map<Slot, Inode>)
    requires HeldSame(x, y, held) && Calm(c, y, z, held)
    ensures Calm(c, x, z, held)
  {
    HeldSameTransitive(x, y, z, held);
  }

  /** A slot that holds a child of the tree need not be held. */
  lemma TreelikeWithoutSlot(c: Scope, ds: Dirs, held: map<Slot, Inode>, s: Slot, id: Inode)
    requires Treelike(c, ds, held[s := id])
    requires Bound(ds, s) ==> At(ds, s) == id
    requires id in ds ==> id in c.tree && c.rank(id) < c.rank(s.dir)
    ensures Treelike(c, ds, held)
  {
  }

  lemma HeldSameTransitive(x: Dirs, y: Dirs, z: Dirs, held: map<Slot, Inode>)
    requires HeldSame(x, y, held) && HeldSame(y, z, held)
    ensures HeldSame(x, z, held)
  {
    forall s | s in held ensures SameAt(x, z, s) {
      assert SameAt(x, y, s) && SameAt(y, z, s);
    }
  }

  /** Neither quarantining nor unlinking a child of `dir` moves a slot held elsewhere. */
  lemma ChildLeavesHeld(c: Scope, ds: Dirs, held: map<Slot, Inode>, dir: Inode, name: string, q: string, id: Inode)
    requires HeldAbove(c, held, dir) && dir in c.tree && dir in ds
    ensures HeldSame(ds, Quarantined(ds, dir, name, q, id), held)
    ensures HeldSame(ds, Unbind(ds, Slot(dir, q)), held)
    ensures Bound(Quarantined(ds, dir, name, q, id), Slot(dir, q)) &&
      At(Quarantined(ds, dir, name, q, id), Slot(dir, q)) == id
  {
    UnbindChangesOne(ds, Slot(dir, name));
    UnbindChangesOne(ds, Slot(dir, q));
    var mid := Unbind(ds, Slot(dir, name));
    var b := Quarantined(ds, dir, name, q, id);
    BindChangesOne(mid, Slot(dir, q), id);
    forall s | s in held ensures SameAt(ds, b, s) {
      assert SameAt(ds, mid, s) && SameAt(mid, b, s);
    }
  }

  lemma SparedTransitive(c: Scope, x: Dirs, y: Dirs, z: Dirs, held: map<Slot, Inode>)
    requires Spared(c, x, y, held) && Spared(c, y, z, held)
    ensures Spared(c, x, z, held)
  {
    forall s | s !in held && OffLimits(c, s.dir) ensures SameAt(x, z, s) {
      assert SameAt(x, y, s) && SameAt(y, z, s);
    }
  }

  lemma SameAboveTransitive(c: Scope, x: Dirs, y: Dirs, z: Dirs, held: map<Slot, Inode>, limit: nat)
    requires SameAbove(c, x, y, held, limit) && SameAbove(c, y, z, held, limit)
    requires OnlyRemoves(x, y, held) && OnlyRemoves(y, z, held)
    ensures SameAbove(c, x, z, held, limit) && OnlyRemoves(x, z, held)
  {
    forall s | s !in held && c.rank(s.dir) > limit ensures SameAt(x, z, s) {
      assert SameAt(x, y, s) && SameAt(y, z, s);
    }
  }

  /** A directory outside the tree, or on another device, that has no held slot is as it was. */
  lemma SparedDirectory(c: Scope, a: Dirs, b: Dirs, held: map<Slot, Inode>, d: Inode)
    requires Spared(c, a, b, held) && d in a && OffLimits(c, d) && forall s :: s in held ==> s.dir != d
    ensures a[d] == b[d]
  {
    forall n ensures n in a[d] <==> n in b[d] {
      assert SameAt(a, b, Slot(d, n));
    }
    forall n | n in a[d] ensures a[d][n] == b[d][n] {
      assert SameAt(a, b, Slot(d, n));
    }
  }

  /** Holding one more slot, unbound at the start, spares no less. */
  lemma SparedWithoutSlot(c: Scope, a: Dirs, b: Dirs, held: map<Slot, Inode>, s: Slot, id: Inode)
    requires Spared(c, a, b, held[s := id]) && !Bound(a, s) && !OffLimits(c, s.dir)
    ensures Spared(c, a, b, held)
  {
  }

  /** The two states differ at most at the held slots. */
  ghost predicate SameExcept(a: Dirs, b: Dirs, held: map<Slot, Inode>) {
    a.Keys == b.Keys && forall s {:trigger SameAt(a, b, s)} :: s !in held ==> SameAt(a, b, s)
  }

  lemma SameExceptTransitive(x: Dirs, y: Dirs, z: Dirs, held: map<Slot, Inode>)
    requires SameExcept(x, y, held) && SameExcept(y, z, held)
    ensures SameExcept(x, z, held)
  {
    forall s | s !in held ensures SameAt(x, z, s) {
      assert SameAt(x, y, s) && SameAt(y, z, s);
    }
  }

  lemma UnheldDirSame(a: Dirs, b: Dirs, held: map<Slot, Inode>, d: Inode)
    requires SameExcept(a, b, held) && d in a && forall s :: s in held ==> s.dir != d
    ensures a[d] == b[d]
  {
    forall n ensures n in a[d] <==> n in b[d] {
      assert SameAt(a, b, Slot(d, n));
    }
    forall n | n in a[d] ensures a[d][n] == b[d][n] {
      assert SameAt(a, b, Slot(d, n));
    }
  }

  // ----- the environment rebinds a held slot -----

  ghost predicate Sound(c: Scope, ds: Dirs, held: map<Slot, Inode>, planted: map<Slot, Inode>) {
    WellFormed(c.m, ds) && Treelike(c, ds, held) && Standing(ds, planted) && AtHeld(planted, held)
  }

  lemma BindChangesOne(ds: Dirs, s: Slot, x: Inode)
    requires s.dir in ds
    ensures var b := Bind(ds, s, x); b.Keys == ds.Keys && Bound(b, s) && At(b, s) == x
    ensures forall t {:trigger SameAt(ds, Bind(ds, s, x), t)} {:trigger Bound(Bind(ds, s, x), t)} ::
              t != s ==> SameAt(ds, Bind(ds, s, x), t)
  {
    forall t | t != s ensures SameAt(ds, Bind(ds, s, x), t) {
      assert t.dir != s.dir || t.name != s.name;
    }
  }

  lemma UnbindChangesOne(ds: Dirs, s: Slot)
    requires s.dir in ds
    ensures var b := Unbind(ds, s); b.Keys == ds.Keys && !Bound(b, s)
    ensures forall t {:trigger SameAt(ds, Unbind(ds, s), t)} {:trigger Bound(Unbind(ds, s), t)} ::
              t != s ==> SameAt(ds, Unbind(ds, s), t)
  {
    forall t | t != s ensures SameAt(ds, Unbind(ds, s), t) {
      assert t.dir != s.dir || t.name != s.name;
    }
  }

  lemma PlantIsSound(c: Scope, ds: Dirs, held: map<Slot, Inode>, planted: map<Slot, Inode>, s: Slot, x: Inode)
    requires Sound(c, ds, held, planted) && s in held && s.dir in ds && x in c.m
    ensures Sound(c, Bind(ds, s, x), held, if x == held[s] then planted - {s} else planted[s := x])
  {
    BindChangesOne(ds, s, x);
    var b := Bind(ds, s, x);
    forall t | Bound(b, t) && t != s ensures Bound(ds, t) && At(ds, t) == At(b, t) {
      assert SameAt(ds, b, t);
    }
    forall t | t in planted && t != s ensures Bound(b, t) && At(b, t) == planted[t] {
      assert SameAt(ds, b, t);
    }
  }

  lemma RemoveIsSound(c: Scope, ds: Dirs, held: map<Slot, Inode>, planted: map<Slot, Inode>, s: Slot)
    requires Sound(c, ds, held, planted) && s.dir in ds
    ensures Sound(c, Unbind(ds, s), held, planted - {s})
  {
    UnbindChangesOne(ds, s);
    var b := Unbind(ds, s);
    forall t | Bound(b, t) ensures Bound(ds, t) && At(ds, t) == At(b, t) {
      assert SameAt(ds, b, t);
    }
    forall t | t in planted && t != s ensures Bound(b, t) && At(b, t) == planted[t] {
      assert SameAt(ds, b, t);
    }
  }

  // ----- removing one child of `dir` -----

  /** The held slots, including that of the child itself. */
  ghost predicate HeldIn(c: Scope, held: map<Slot, Inode>, dir: Inode) {
    forall s :: s in held && s.dir in c.tree ==> c.rank(s.dir) >= c.rank(dir)
  }

  /** Since state `a` the child `name` of `dir` was quarantined, and nothing else changed at `dir`'s rank or above. */
  ghost predicate During(c: Scope, a: Dirs, b: Dirs, held: map<Slot, Inode>, dir: Inode, name: string) {
    && Spared(c, a, b, held) && OnlyRemoves(a, b, held) && !Bound(b, Slot(dir, name))
    && forall s {:trigger SameAt(a, b, s)} ::
         s !in held && s != Slot(dir, name) && c.rank(s.dir) >= c.rank(dir) ==> SameAt(a, b, s)
  }

  /** The child goes to an unused name, which is from now on held. */
  function Quarantined(ds: Dirs, dir: Inode, name: string, q: string, id: Inode): Dirs {
    Bind(Unbind(ds, Slot(dir, name)), Slot(dir, q), id)
  }

  lemma QuarantineIsSound(c: Scope, ds: Dirs, held: map<Slot, Inode>, planted: map<Slot, Inode>,
                          dir: Inode, name: string, q: string)
    returns (held': map<Slot, Inode>)
    requires Sound(c, ds, held, planted) && HeldAbove(c, held, dir) && dir in c.tree && !Foreign(c, dir)
    requires Bound(ds, Slot(dir, name)) && q !in ds[dir] && !Foreign(c, At(ds, Slot(dir, name)))
    ensures held' == held[Slot(dir, q) := At(ds, Slot(dir, name))] && HeldIn(c, held', dir)
    ensures var b := Quarantined(ds, dir, name, q, At(ds, Slot(dir, name)));
      Sound(c, b, held', planted) && During(c, ds, b, held', dir, name)
  {
    var s, t, id := Slot(dir, name), Slot(dir, q), At(ds, Slot(dir, name));
    held' := held[t := id];
    var mid := Unbind(ds, s);
    var b := Bind(mid, t, id);
    UnbindChangesOne(ds, s);
    BindChangesOne(mid, t, id);
    forall x | x != s && x != t ensures SameAt(ds, b, x) {
      assert SameAt(ds, mid, x) && SameAt(mid, b, x);
    }
    assert SameAt(mid, b, s);
  }

  lemma DuringAfterHook(c: Scope, a: Dirs, b: Dirs, z: Dirs, held: map<Slot, Inode>, dir: Inode, name: string)
    requires During(c, a, b, held, dir, name) && SameExcept(b, z, held) && HeldIn(c, held, dir)
    requires Slot(dir, name) !in held
    ensures During(c, a, z, held, dir, name)
  {
    forall s | s !in held && OffLimits(c, s.dir) ensures SameAt(a, z, s) {
      assert SameAt(a, b, s) && SameAt(b, z, s);
    }
    forall s | s !in held ensures SameAt(b, z, s) {
    }
    forall s | s !in held && s != Slot(dir, name) && c.rank(s.dir) >= c.rank(dir) ensures SameAt(a, z, s) {
      assert SameAt(a, b, s) && SameAt(b, z, s);
    }
    assert SameAt(b, z, Slot(dir, name));
  }

  /** A child renamed to a fresh name: what the environment then finds. */
  lemma AsideIsSound(c: Scope, a: Dirs, held: map<Slot, Inode>, planted: map<Slot, Inode>, dir: Inode, name: string,
                     q: string, id: Inode)
    requires Sound(c, a, held, planted) && HeldAbove(c, held, dir) && dir in c.tree && dir in a && !Foreign(c, dir)
    requires name in a[dir] && id == a[dir][name] && q !in a[dir] && !Foreign(c, id)
    ensures var b, held' := Quarantined(a, dir, name, q, id), held[Slot(dir, q) := id];
      && Sound(c, b, held', planted) && HeldIn(c, held', dir) && During(c, a, b, held', dir, name)
      && HeldSame(a, b, held) && Treelike(c, b, held)
      && Bound(b, Slot(dir, q)) && At(b, Slot(dir, q)) == id
  {
    assert Bound(a, Slot(dir, name)) && At(a, Slot(dir, name)) == id;
    ChildLeavesHeld(c, a, held, dir, name, q, id);
    var held' := QuarantineIsSound(c, a, held, planted, dir, name, q);
    TreelikeWithoutSlot(c, Quarantined(a, dir, name, q, id), held, Slot(dir, q), id);
  }

  /** What the environment's turn at the fresh name leaves. */
  lemma AsideAfterTurn(c: Scope, a: Dirs, b: Dirs, z: Dirs, held: map<Slot, Inode>, dir: Inode, name: string, q: string,
                       id: Inode)
    requires dir in a && !OffLimits(c, dir) && name in a[dir] && q !in a[dir]
    requires var held' := held[Slot(dir, q) := id];
      HeldIn(c, held', dir) && During(c, a, b, held', dir, name) && SameExcept(b, z, held') && Slot(dir, name) !in held'
    ensures During(c, a, z, held[Slot(dir, q) := id], dir, name) && Spared(c, a, z, held)
  {
    DuringAfterHook(c, a, b, z, held[Slot(dir, q) := id], dir, name);
    SparedWithoutSlot(c, a, z, held, Slot(dir, q), id);
  }

  lemma DuringAfterRecursion(c: Scope, a: Dirs, b: Dirs, z: Dirs, held: map<Slot, Inode>, dir: Inode, name: string,
                             limit: nat)
    requires During(c, a, b, held, dir, name) && limit < c.rank(dir) && Slot(dir, name) !in held
    requires Spared(c, b, z, held) && OnlyRemoves(b, z, held) && SameAbove(c, b, z, held, limit)
    ensures During(c, a, z, held, dir, name)
  {
    SparedTransitive(c, a, b, z, held);
    forall s | s !in held && s != Slot(dir, name) && c.rank(s.dir) >= c.rank(dir) ensures SameAt(a, z, s) {
      assert SameAt(a, b, s) && SameAt(b, z, s);
    }
    assert SameAt(b, z, Slot(dir, name));
  }

  lemma ChildIsGone(c: Scope, a: Dirs, b: Dirs, held: map<Slot, Inode>, planted: map<Slot, Inode>,
                    dir: Inode, name: string, q: string, id: Inode)
    requires Treelike(c, a, held)
    requires HeldAbove(c, held, dir) && dir in c.tree && !Foreign(c, dir) && dir in a
    requires Sound(c, b, held[Slot(dir, q) := id], planted) && During(c, a, b, held[Slot(dir, q) := id], dir, name)
    requires q !in a[dir] && Slot(dir, q) !in planted && name in a[dir]
    ensures var z := Unbind(b, Slot(dir, q));
      && Sound(c, z, held, planted) && Spared(c, a, z, held) && OnlyRemoves(a, z, held)
      && SameAbove(c, a, z, held, c.rank(dir))
      && z[dir].Keys == a[dir].Keys - {name}
  {
    var t := Slot(dir, q);
    var held' := held[t := id];
    var z := Unbind(b, t);
    UnbindChangesOne(b, t);
    RemoveIsSound(c, b, held', planted, t);
    assert planted - {t} == planted;
    forall s | s != t ensures SameAt(b, z, s) {
    }
    forall s | s !in held && OffLimits(c, s.dir) ensures SameAt(a, z, s) {
      assert SameAt(a, b, s) && SameAt(b, z, s);
    }
    forall s | s !in held && s != Slot(dir, name) && c.rank(s.dir) >= c.rank(dir) ensures SameAt(a, z, s) {
      if s == t {
        assert !Bound(a, s) && !Bound(z, s);
      } else {
        assert SameAt(a, b, s) && SameAt(b, z, s);
      }
    }
    assert SameAt(b, z, Slot(dir, name));
    forall n ensures n in z[dir] <==> n in a[dir] && n != name {
      if n != name {
        assert SameAt(a, z, Slot(dir, n));
      }
    }
  }
}
