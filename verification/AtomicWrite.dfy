/**
  Atomic replacement of a state file (core/src/safety/fs.rs) on a directory that can crash: an unsynced
  directory may come back in any of its versions since the last directory sync, and an unsynced file may come
  back with any contents. Every system call may fail.
 */
module AtomicWrite {
  import opened Wrappers

  type Bytes = seq<bv8>

  datatype Node = Regular(data: Bytes, synced: bool) | Symlink | Special

  datatype Disk = Disk(entries: map<string, nat>, nodes: map<nat, Node>, versions: seq<map<string, nat>>)

  predicate Valid(d: Disk) {
    && d.versions != [] && d.versions[|d.versions| - 1] == d.entries
    && forall k, n :: 0 <= k < |d.versions| && n in d.versions[k] ==> d.versions[k][n] in d.nodes
  }

  /** After a crash now, the file `name` could hold `found` (None: no such file). */
  ghost predicate MayFind(d: Disk, name: string, found: Option<Bytes>) {
    exists k :: 0 <= k < |d.versions| && Shows(d, d.versions[k], name, found)
  }

  predicate Shows(d: Disk, v: map<string, nat>, name: string, found: Option<Bytes>) {
    if name !in v then found == None
    else
      && v[name] in d.nodes && d.nodes[v[name]].Regular? && found.Some?
      && (d.nodes[v[name]].synced ==> found.value == d.nodes[v[name]].data)
  }

  /** No version of the directory gives the node to that name. */
  ghost predicate Unlinked(d: Disk, name: string, node: nat) {
    forall k :: 0 <= k < |d.versions| && name in d.versions[k] ==> d.versions[k][name] != node
  }

  // ----- system calls on values -----

  function WithEntries(d: Disk, entries: map<string, nat>): Disk {
    d.(entries := entries, versions := d.versions + [entries])
  }

  function Without(m: map<string, nat>, name: string): map<string, nat> {
    map n | n in m && n != name :: m[n]
  }

  function Create(d: Disk, name: string, node: nat): Disk {
    WithEntries(d, d.entries[name := node]).(nodes := d.nodes[node := Regular([], false)])
  }

  function SetNode(d: Disk, node: nat, data: Bytes, synced: bool): Disk {
    d.(nodes := d.nodes[node := Regular(data, synced)])
  }

  function Unlink(d: Disk, name: string): Disk {
    WithEntries(d, Without(d.entries, name))
  }

  function Rename(d: Disk, from: string, to: string): Disk
    requires from in d.entries
  {
    WithEntries(d, Without(d.entries, from)[to := d.entries[from]])
  }

  function SyncDir(d: Disk): Disk {
    d.(versions := [d.entries])
  }

  // ----- what a crash can reveal after each call -----

  lemma CreateReveals(d: Disk, temp: string, node: nat, name: string)
    requires Valid(d) && node !in d.nodes && temp != name
    ensures var d' := Create(d, temp, node);
      && Valid(d') && Unlinked(d', name, node)
      && forall found :: MayFind(d', name, found) <==> MayFind(d, name, found)
  {
    var d' := Create(d, temp, node);
    var last := |d.versions| - 1;
    forall found ensures MayFind(d', name, found) <==> MayFind(d, name, found) {
      if MayFind(d', name, found) {
        var k :| 0 <= k < |d'.versions| && Shows(d', d'.versions[k], name, found);
        var k' := if k <= last then k else last;
        assert name in d.versions[k'] ==> d.versions[k'][name] in d.nodes;
        assert Shows(d, d.versions[k'], name, found);
      }
      if MayFind(d, name, found) {
        var k :| 0 <= k < |d.versions| && Shows(d, d.versions[k], name, found);
        assert Shows(d', d'.versions[k], name, found);
      }
    }
  }

  lemma SetNodeReveals(d: Disk, node: nat, data: Bytes, synced: bool, name: string)
    requires Valid(d) && Unlinked(d, name, node)
    ensures var d' := SetNode(d, node, data, synced);
      && Valid(d') && Unlinked(d', name, node)
      && forall found :: MayFind(d', name, found) <==> MayFind(d, name, found)
  {
    var d' := SetNode(d, node, data, synced);
    forall found ensures MayFind(d', name, found) <==> MayFind(d, name, found) {
      if MayFind(d', name, found) {
        var k :| 0 <= k < |d'.versions| && Shows(d', d'.versions[k], name, found);
        assert name in d.versions[k] ==> d.versions[k][name] in d.nodes;
        assert Shows(d, d.versions[k], name, found);
      }
      if MayFind(d, name, found) {
        var k :| 0 <= k < |d.versions| && Shows(d, d.versions[k], name, found);
        assert Shows(d', d'.versions[k], name, found);
      }
    }
  }

  lemma UnlinkReveals(d: Disk, temp: string, name: string)
    requires Valid(d) && temp != name
    ensures var d' := Unlink(d, temp);
      && Valid(d') && forall found :: MayFind(d', name, found) <==> MayFind(d, name, found)
  {
    var d' := Unlink(d, temp);
    var last := |d.versions| - 1;
    forall found ensures MayFind(d', name, found) <==> MayFind(d, name, found) {
      if MayFind(d', name, found) {
        var k :| 0 <= k < |d'.versions| && Shows(d', d'.versions[k], name, found);
        assert Shows(d, d.versions[if k <= last then k else last], name, found);
      }
      if MayFind(d, name, found) {
        var k :| 0 <= k < |d.versions| && Shows(d, d.versions[k], name, found);
        assert Shows(d', d'.versions[k], name, found);
      }
    }
  }

  lemma RenameReveals(d: Disk, temp: string, name: string, data: Bytes)
    requires Valid(d) && temp in d.entries && temp != name
    requires d.entries[temp] in d.nodes && d.nodes[d.entries[temp]] == Regular(data, true)
    ensures var d' := Rename(d, temp, name);
      && Valid(d')
      && forall found :: MayFind(d', name, found) <==> MayFind(d, name, found) || found == Some(data)
  {
    var d' := Rename(d, temp, name);
    forall found ensures MayFind(d', name, found) <==> MayFind(d, name, found) || found == Some(data) {
      if MayFind(d', name, found) {
        var k :| 0 <= k < |d'.versions| && Shows(d', d'.versions[k], name, found);
        if k < |d.versions| { assert Shows(d, d.versions[k], name, found); }
      }
      if MayFind(d, name, found) {
        var k :| 0 <= k < |d.versions| && Shows(d, d.versions[k], name, found);
        assert Shows(d', d'.versions[k], name, found);
      }
      assert Shows(d', d'.versions[|d.versions|], name, Some(data));
    }
  }

  lemma SyncDirReveals(d: Disk, name: string, data: Bytes)
    requires Valid(d) && name in d.entries && d.entries[name] in d.nodes &&
      d.nodes[d.entries[name]] == Regular(data, true)
    ensures Valid(SyncDir(d)) && forall found :: MayFind(SyncDir(d), name, found) <==> found == Some(data)
  {
    assert Shows(SyncDir(d), SyncDir(d).versions[0], name, Some(data));
  }

  /** Once directory and file are synced, a crash reveals what is there: the file's contents, or that it is missing. */
  lemma SyncedIsCertain(d: Disk, name: string, found: Option<Bytes>)
    requires Valid(d) && d.versions == [d.entries]
    requires name in d.entries ==> d.nodes[d.entries[name]].Regular? && d.nodes[d.entries[name]].synced
    ensures MayFind(d, name, found) <==>
      found == if name in d.entries then Some(d.nodes[d.entries[name]].data) else None
  {
    assert Shows(d, d.versions[0], name, found) <==>
      found == if name in d.entries then Some(d.nodes[d.entries[name]].data) else None;
  }

  /** Why the file is synced before the rename: otherwise a crash could reveal anything. */
  lemma UnsyncedRenameTears(d: Disk, temp: string, name: string, torn: Bytes)
    requires Valid(d) && temp in d.entries && d.nodes[d.entries[temp]].Regular? && !d.nodes[d.entries[temp]].synced
    ensures MayFind(Rename(d, temp, name), name, Some(torn))
  {
    var d' := Rename(d, temp, name);
    assert Shows(d', d'.versions[|d.versions|], name, Some(torn));
  }

  // ----- write_owner_only_json_at -----

  const TEMP_PREFIX := ".trusted-commands.tmp-"
  const NAME_TRIES := 128

  /** Which calls succeed, what the random suffixes are, and what a failed write leaves behind. */
  datatype Io = Io(
    inspect: bool, suffix: nat -> string, create: nat -> bool, chmod: bool, write: bool, partial: Bytes, flush: bool,
    syncFile: bool, rename: bool, unlink: bool, syncDir: bool)

  function TempName(io: Io, k: nat): string {
    TEMP_PREFIX + io.suffix(k)
  }

  /** Try `k` is the first whose name is free, and it comes before any other failure. */
  ghost predicate FreeTry(entries: map<string, nat>, io: Io, k: int) {
    && 0 <= k < NAME_TRIES && TempName(io, k) !in entries && io.create(k)
    && forall j :: 0 <= j < k ==> TempName(io, j) in entries
  }

  predicate Replaceable(d: Disk, name: string) {
    name in d.entries && d.entries[name] in d.nodes ==> d.nodes[d.entries[name]].Regular?
  }

  predicate AllSucceed(io: Io) {
    io.inspect && io.chmod && io.write && io.flush && io.syncFile && io.rename && io.syncDir
  }

  ghost predicate SomeTryIsFree(entries: map<string, nat>, io: Io) {
    exists k :: FreeTry(entries, io, k)
  }

  /** Every call that comes before the rename of a write over `name`, and the rename itself, succeed. */
  ghost predicate Renames(d: Disk, name: string, io: Io) {
    && io.inspect && Replaceable(d, name) && SomeTryIsFree(d.entries, io)
    && io.chmod && io.write && io.flush && io.syncFile && io.rename
  }

  /** The name holds what it held, or nothing, as before. */
  ghost predicate SameName(a: map<string, nat>, b: map<string, nat>, name: string) {
    (name in b <==> name in a) && (name in a ==> b[name] == a[name])
  }

  /** The names are as they were, or a temporary one is left because its removal failed. */
  ghost predicate AtMostTemporary(a: map<string, nat>, b: map<string, nat>, io: Io, node: nat) {
    b == a || (!io.unlink && exists k :: FreeTry(a, io, k) && b == a[TempName(io, k) := node])
  }

  /** Files that were there are there, with their contents. */
  ghost predicate NodesKept(a: Disk, b: Disk) {
    forall n :: n in a.nodes ==> n in b.nodes && b.nodes[n] == a.nodes[n]
  }

  /** Whatever a crash reveals is one of the old contents, or the complete new ones. */
  ghost predicate Safe(d: Disk, before: Disk, name: string, data: Bytes) {
    forall found :: MayFind(d, name, found) ==> MayFind(before, name, found) || found == Some(data)
  }

  ghost predicate SafeSince(trace: seq<Disk>, n: nat, before: Disk, name: string, data: Bytes) {
    forall i :: n <= i < |trace| ==> Safe(trace[i], before, name, data)
  }

  class StateDirectory {
    var disk: Disk
    /** Every state the disk went through: the points at which it may crash. */
    ghost var trace: seq<Disk>

    constructor (d: Disk)
      ensures disk == d && trace == [d]
    {
      disk, trace := d, [d];
    }

    method Step(d: Disk)
      modifies this
      ensures disk == d && trace == old(trace) + [d]
    {
      disk, trace := d, trace + [d];
    }

    method FindTempName(io: Io) returns (k: Option<nat>)
      ensures k.Some? ==> FreeTry(disk.entries, io, k.value)
      ensures k.None? ==> forall j :: !FreeTry(disk.entries, io, j)
    {
      for j := 0 to NAME_TRIES
        invariant forall i :: 0 <= i < j ==> TempName(io, i) in disk.entries
      {
        if TempName(io, j) !in disk.entries {
          return if io.create(j) then Some(j) else None;
        }
      }
      return None;
    }

    /** The drop guard: removes the temporary entry unless the removal itself fails. */
    method DropTemporary(temp: string, io: Io)
      modifies this
      ensures disk == (if io.unlink then Unlink(old(disk), temp) else old(disk))
      ensures trace == old(trace) + (if io.unlink then [disk] else [])
    {
      if io.unlink {
        Step(Unlink(disk, temp));
      }
    }

    /** Everything up to the rename; the temporary file then holds the data, synced. */
    method Prepare(temp: string, node: nat, data: Bytes, io: Io, ghost name: string) returns (ok: bool)
      requires Valid(disk) && node !in disk.nodes && temp !in disk.entries && temp != name
      requires trace != [] && trace[|trace| - 1] == disk
      modifies this
      ensures Valid(disk) && trace != [] && trace[|trace| - 1] == disk
      ensures disk.entries == old(disk).entries[temp := node] && node in disk.nodes
      ensures NodesKept(old(disk), disk)
      ensures ok <==> io.chmod && io.write && io.flush && io.syncFile
      ensures ok ==> disk.nodes[node] == Regular(data, true)
      ensures old(trace) <= trace
      ensures forall i :: |old(trace)| <= i < |trace| ==>
                forall found :: MayFind(trace[i], name, found) <==> MayFind(old(disk), name, found)
    {
      CreateReveals(disk, temp, node, name);
      Step(Create(disk, temp, node));
      ok := false;
      if !io.chmod {
        return;
      }
      var written := if io.write then data else io.partial;
      SetNodeReveals(disk, node, written, false, name);
      Step(SetNode(disk, node, written, false));
      if !io.write || !io.flush || !io.syncFile {
        return;
      }
      SetNodeReveals(disk, node, data, true, name);
      Step(SetNode(disk, node, data, true));
      ok := true;
    }

    /** Renames the prepared file over `name`, or removes it. */
    method Publish(temp: string, name: string, data: Bytes, prepared: bool, io: Io, ghost before: Disk)
      returns (renamed: bool, synced: bool)
      requires Valid(disk) && temp in disk.entries && temp != name && trace != [] && trace[|trace| - 1] == disk
      requires disk.entries[temp] in disk.nodes
      requires prepared ==> disk.nodes[disk.entries[temp]] == Regular(data, true)
      requires Safe(disk, before, name, data)
      modifies this
      ensures Valid(disk) && old(trace) <= trace && trace[|trace| - 1] == disk
      ensures SafeSince(trace, |old(trace)|, before, name, data)
      ensures renamed <==> prepared && io.rename
      ensures synced <==> renamed && io.syncDir
      ensures renamed ==> disk.entries == Without(old(disk).entries, temp)[name := old(disk).entries[temp]]
      ensures !renamed ==> disk.entries == (if io.unlink then Without(old(disk).entries, temp) else old(disk).entries)
      ensures synced ==> forall found :: MayFind(disk, name, found) <==> found == Some(data)
      ensures disk.nodes == old(disk).nodes
    {
      renamed, synced := false, false;
      if !prepared || !io.rename {
        UnlinkReveals(disk, temp, name);
        DropTemporary(temp, io);
        return;
      }
      RenameReveals(disk, temp, name, data);
      Step(Rename(disk, temp, name));
      renamed := true;
      if !io.syncDir {
        return;
      }
      SyncDirReveals(disk, name, data);
      Step(SyncDir(disk));
      synced := true;
    }

    method Replace(temp: string, name: string, data: Bytes, node: nat, io: Io) returns (renamed: bool, synced: bool)
      requires Valid(disk) && node !in disk.nodes && temp !in disk.entries && temp != name
      requires trace != [] && trace[|trace| - 1] == disk
      modifies this
      ensures Valid(disk) && old(trace) <= trace && trace[|trace| - 1] == disk
      ensures SafeSince(trace, |old(trace)|, old(disk), name, data)
      ensures renamed <==> io.chmod && io.write && io.flush && io.syncFile && io.rename
      ensures synced <==> renamed && io.syncDir
      ensures synced ==> forall found :: MayFind(disk, name, found) <==> found == Some(data)
      ensures renamed ==>
        disk.entries == old(disk).entries[name := node] && node in disk.nodes && disk.nodes[node] == Regular(data, true)
      ensures !renamed ==> disk.entries == (if io.unlink then old(disk).entries else old(disk).entries[temp := node])
      ensures NodesKept(old(disk), disk)
    {
      var prepared := Prepare(temp, node, data, io, name);
      assert Without(old(disk).entries[temp := node], temp) == old(disk).entries;
      renamed, synced := Publish(temp, name, data, prepared, io, old(disk));
    }

    /** Everything after the inspection of the destination. */
    method ReplaceThrough(name: string, data: Bytes, node: nat, io: Io)
      returns (r: Result<(), string>, ghost renamed: bool)
      requires Valid(disk) && node !in disk.nodes && !(TEMP_PREFIX <= name)
      requires trace != [] && trace[|trace| - 1] == disk
      modifies this
      ensures Valid(disk) && old(trace) <= trace && trace[|trace| - 1] == disk
      ensures SafeSince(trace, |old(trace)|, old(disk), name, data)
      ensures renamed <==>
        io.chmod && io.write && io.flush && io.syncFile && io.rename && SomeTryIsFree(old(disk).entries, io)
      ensures r.Success? <==> renamed && io.syncDir
      ensures r.Success? ==> forall found :: MayFind(disk, name, found) <==> found == Some(data)
      ensures renamed ==>
        disk.entries == old(disk).entries[name := node] && node in disk.nodes && disk.nodes[node] == Regular(data, true)
      ensures !renamed && io.unlink ==> disk.entries == old(disk).entries
      ensures !renamed ==> SameName(old(disk).entries, disk.entries, name)
      ensures !renamed ==> AtMostTemporary(old(disk).entries, disk.entries, io, node)
      ensures NodesKept(old(disk), disk)
    {
      var k := FindTempName(io);
      if k.None? {
        return Failure("failed to create temporary state file"), false;
      }
      var temp := TempName(io, k.value);
      assert temp != name;
      var done, synced := Replace(temp, name, data, node, io);
      return if synced then Success(()) else Failure("failed to replace state file"), done;
    }

    /**
      Replaces `name` by `data`. Whenever the machine crashes, the file holds complete old or complete new
      contents; a failure before the rename leaves the directory as it was, if the guard's removal succeeds.
     */
    method WriteOwnerOnly(name: string, data: Bytes, node: nat, io: Io)
      returns (r: Result<(), string>, ghost renamed: bool)
      requires Valid(disk) && node !in disk.nodes && !(TEMP_PREFIX <= name)
      requires trace != [] && trace[|trace| - 1] == disk
      modifies this
      ensures Valid(disk) && old(trace) <= trace && trace[|trace| - 1] == disk
      ensures SafeSince(trace, |old(trace)|, old(disk), name, data)
      ensures renamed <==> Renames(old(disk), name, io)
      ensures r.Success? <==>
        AllSucceed(io) && Replaceable(old(disk), name) && SomeTryIsFree(old(disk).entries, io)
      ensures r.Success? <==> renamed && io.syncDir
      ensures r.Success? ==> forall found :: MayFind(disk, name, found) <==> found == Some(data)
      ensures renamed ==>
        disk.entries == old(disk).entries[name := node] && node in disk.nodes && disk.nodes[node] == Regular(data, true)
      ensures !renamed && io.unlink ==> disk.entries == old(disk).entries
      ensures !renamed ==> SameName(old(disk).entries, disk.entries, name)
      ensures !renamed ==> AtMostTemporary(old(disk).entries, disk.entries, io, node)
      ensures NodesKept(old(disk), disk)
      ensures var before := old(disk);
        name in before.entries && before.entries[name] in before.nodes &&
          !before.nodes[before.entries[name]].Regular? ==>
          r.Failure? && disk == before
    {
      renamed := false;
      if !io.inspect {
        return Failure("failed to inspect state file"), false;
      }
      if name in disk.entries && disk.entries[name] in disk.nodes && !disk.nodes[disk.entries[name]].Regular? {
        return Failure("state path is not a regular file"), false;
      }
      r, renamed := ReplaceThrough(name, data, node, io);
    }
  }
}
