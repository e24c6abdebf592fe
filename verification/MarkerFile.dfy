/**
  The worktree's marker as a state file: what `write_owner_only_json_at` leaves in the directory is what
  `Worktree` takes a marker write to leave (core/src/safety/git.rs, core/src/safety/fs.rs).
 */
module MarkerFile {
  import opened Wrappers
  import opened AtomicWrite
  import opened Worktree

  /** The names of the directory after a marker write. */
  function NamesAfter(write: MarkerWrite, names: map<string, nat>, marker: string, node: nat): map<string, nat> {
    if NameWritten(write, marker).None? then names else names[NameWritten(write, marker).value := node]
  }

  /** Writes the marker, and tells which of the three endings it had. */
  method WriteMarkerFile(directory: StateDirectory, marker: string, data: Bytes, node: nat, io: Io)
    returns (ok: bool, ghost write: MarkerWrite)
    requires Valid(directory.disk) && node !in directory.disk.nodes && !(TEMP_PREFIX <= marker)
    requires directory.trace != [] && directory.trace[|directory.trace| - 1] == directory.disk
    modifies directory
    ensures ok == write.Written?
    ensures directory.disk.entries == NamesAfter(write, old(directory.disk.entries), marker, node)
    ensures !write.NotRenamed? <==> Renames(old(directory.disk), marker, io)
    ensures write.Written? <==> !write.NotRenamed? && io.syncDir
    ensures forall n :: n in TemporaryOf(write) ==> TEMP_PREFIX <= n && n !in old(directory.disk.entries) && !io.unlink
  {
    ghost var before := directory.disk.entries;
    var r;
    ghost var renamed;
    r, renamed := directory.WriteOwnerOnly(marker, data, node, io);
    ok := r.Success?;
    if renamed {
      write := if io.syncDir then Written else Unsynced;
    } else if directory.disk.entries == before {
      write := NotRenamed(None);
    } else {
      ghost var k :| FreeTry(before, io, k) && directory.disk.entries == before[TempName(io, k) := node];
      write := NotRenamed(Some(TempName(io, k)));
    }
  }
}
