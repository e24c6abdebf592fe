/** The trust store (core/src/safety/trust.rs): a list of keys in one atomically replaced file. */
module Trust {
  import opened Wrappers
  import opened Sequences
  import opened AtomicWrite

  datatype TrustKey = TrustKey(repo: string, digest: string)

  /** The JSON reader and writer; the writer's output reads back. */
  datatype Codec = Codec(parse: Bytes -> Option<seq<TrustKey>>, render: seq<TrustKey> -> Bytes)

  ghost predicate RoundTrips(codec: Codec) {
    forall keys :: codec.parse(codec.render(keys)) == Some(keys)
  }

  // ----- the list and the map it stands for -----

  function Retain(keys: seq<TrustKey>, repo: string): seq<TrustKey> {
    if keys == [] then []
    else
      var front, last := Retain(keys[..|keys| - 1], repo), keys[|keys| - 1];
      if last.repo != repo then front + [last] else front
  }

  function Updated(keys: seq<TrustKey>, k: TrustKey): seq<TrustKey> {
    Retain(keys, k.repo) + [k]
  }

  predicate DistinctRepos(keys: seq<TrustKey>) {
    forall i, j :: 0 <= i < j < |keys| ==> keys[i].repo != keys[j].repo
  }

  /** One digest a repository. */
  ghost predicate Represents(keys: seq<TrustKey>, m: map<string, string>) {
    && DistinctRepos(keys)
    && (forall i :: 0 <= i < |keys| ==> keys[i].repo in m && m[keys[i].repo] == keys[i].digest)
    && (forall r :: r in m ==> TrustKey(r, m[r]) in keys)
  }

  lemma {:induction false} RetainMembers(keys: seq<TrustKey>, repo: string)
    ensures forall k :: k in Retain(keys, repo) <==> k in keys && k.repo != repo
  {
    if keys != [] {
      RetainMembers(keys[..|keys| - 1], repo);
      assert keys == keys[..|keys| - 1] + [keys[|keys| - 1]];
    }
  }

  /** The kept keys are those of other repositories, in order. */
  lemma {:induction false} RetainExactly(keys: seq<TrustKey>, repo: string)
    ensures Retain(keys, repo) == Filter(keys, (k: TrustKey) => k.repo != repo, k => k)
  {
    if keys != [] {
      RetainExactly(keys[..|keys| - 1], repo);
    }
  }

  lemma DistinctPush(kept: seq<TrustKey>, k: TrustKey)
    requires DistinctRepos(kept) && forall x :: x in kept ==> x.repo != k.repo
    ensures DistinctRepos(kept + [k])
  {
  }

  lemma {:induction false} RetainDistinct(keys: seq<TrustKey>, repo: string)
    requires DistinctRepos(keys)
    ensures DistinctRepos(Retain(keys, repo))
  {
    if keys != [] {
      var front, last := keys[..|keys| - 1], keys[|keys| - 1];
      RetainDistinct(front, repo);
      RetainMembers(front, repo);
      DistinctPush(Retain(front, repo), last);
    }
  }

  /** Trusting replaces the repository's digest and touches no other repository. */
  lemma UpdatedRepresents(keys: seq<TrustKey>, m: map<string, string>, k: TrustKey)
    requires Represents(keys, m)
    ensures Represents(Updated(keys, k), m[k.repo := k.digest])
  {
    RetainMembers(keys, k.repo);
    RetainDistinct(keys, k.repo);
    var kept, m' := Retain(keys, k.repo), m[k.repo := k.digest];
    forall i | 0 <= i < |kept| ensures kept[i].repo != k.repo && kept[i].repo in m &&
      m[kept[i].repo] == kept[i].digest {
      assert kept[i] in kept;
    }
    forall r | r in m' ensures TrustKey(r, m'[r]) in Updated(keys, k) {
      if r != k.repo {
        assert TrustKey(r, m[r]) in kept;
      }
    }
  }

  function TrustAll(calls: seq<TrustKey>): seq<TrustKey> {
    if calls == [] then [] else Updated(TrustAll(calls[..|calls| - 1]), calls[|calls| - 1])
  }

  function LastTrusted(calls: seq<TrustKey>): map<string, string> {
    if calls == [] then map[]
    else LastTrusted(calls[..|calls| - 1])[calls[|calls| - 1].repo := calls[|calls| - 1].digest]
  }

  /** From an empty store, any sequence of calls leaves each repository with the digest trusted last, once. */
  lemma {:induction false} StoreIsMap(calls: seq<TrustKey>)
    ensures Represents(TrustAll(calls), LastTrusted(calls))
    ensures forall k :: k in TrustAll(calls) <==> k.repo in LastTrusted(calls) && LastTrusted(calls)[k.repo] == k.digest
  {
    if calls != [] {
      StoreIsMap(calls[..|calls| - 1]);
      UpdatedRepresents(TrustAll(calls[..|calls| - 1]), LastTrusted(calls[..|calls| - 1]), calls[|calls| - 1]);
    }
    MembershipIsLookup(TrustAll(calls), LastTrusted(calls));
  }

  lemma MembershipIsLookup(keys: seq<TrustKey>, m: map<string, string>)
    requires Represents(keys, m)
    ensures forall k :: k in keys <==> k.repo in m && m[k.repo] == k.digest
  {
    forall k ensures k in keys <==> k.repo in m && m[k.repo] == k.digest {
      if k.repo in m && m[k.repo] == k.digest {
        assert k == TrustKey(k.repo, m[k.repo]);
      }
    }
  }

  // ----- the store on disk -----

  const TRUST_FILE_NAME := "trusted-commands.json"

  /** The list a reader sees now; nothing when the file is not a readable list. */
  function Stored(d: Disk, codec: Codec): Option<seq<TrustKey>> {
    if TRUST_FILE_NAME !in d.entries then Some([])
    else if d.entries[TRUST_FILE_NAME] in d.nodes && d.nodes[d.entries[TRUST_FILE_NAME]].Regular? then
      codec.parse(d.nodes[d.entries[TRUST_FILE_NAME]].data)
    else None
  }

  /** The list can be read: it is one, and the calls that read an existing file succeed. */
  predicate Loadable(d: Disk, codec: Codec, readable: bool) {
    Stored(d, codec).Some? && (TRUST_FILE_NAME in d.entries ==> readable)
  }

  // ----- sequences of calls -----

  /** One `trust` call: either it took effect, and the list is updated, or the list is as it was. */
  ghost predicate TrustStep(codec: Codec, before: Disk, key: Result<TrustKey, string>, after: Disk, took: bool) {
    if took then
      && key.Success? && Stored(before, codec).Some?
      && Stored(after, codec) == Some(Updated(Stored(before, codec).value, key.value))
    else Stored(after, codec) == Stored(before, codec)
  }

  ghost predicate StepAt(codec: Codec, disks: seq<Disk>, keys: seq<Result<TrustKey, string>>, took: seq<bool>, i: nat)
    requires |disks| == |keys| + 1 == |took| + 1 && i < |keys|
  {
    TrustStep(codec, disks[i], keys[i], disks[i + 1], took[i])
  }

  /** Any sequence of calls, each successful, failed without effect, or failed after its effect. */
  ghost predicate TrustRun(codec: Codec, disks: seq<Disk>, keys: seq<Result<TrustKey, string>>, took: seq<bool>) {
    && |disks| == |keys| + 1 == |took| + 1
    && forall i {:trigger StepAt(codec, disks, keys, took, i)} :: 0 <= i < |keys| ==>
         StepAt(codec, disks, keys, took, i)
  }

  /** The keys of the first `n` calls that took effect. */
  ghost function Effective(keys: seq<Result<TrustKey, string>>, took: seq<bool>, n: nat): seq<TrustKey>
    requires n <= |keys| == |took|
  {
    if n == 0 then []
    else if took[n - 1] && keys[n - 1].Success? then Effective(keys, took, n - 1) + [keys[n - 1].value]
    else Effective(keys, took, n - 1)
  }

  /** From a missing file, the stored list is always the one that the effective calls leave. */
  lemma {:induction false} StoreFollowsCalls(codec: Codec, disks: seq<Disk>, keys: seq<Result<TrustKey, string>>,
                                             took: seq<bool>, n: nat)
    requires TrustRun(codec, disks, keys, took) && n <= |keys| && TRUST_FILE_NAME !in disks[0].entries
    ensures Stored(disks[n], codec) == Some(TrustAll(Effective(keys, took, n)))
  {
    if n > 0 {
      StoreFollowsCalls(codec, disks, keys, took, n - 1);
      assert StepAt(codec, disks, keys, took, n - 1);
      OneCall(codec, disks[n - 1], keys[n - 1], disks[n], took[n - 1], Effective(keys, took, n - 1));
    }
  }

  lemma OneCall(codec: Codec, before: Disk, key: Result<TrustKey, string>, after: Disk, took: bool,
                calls: seq<TrustKey>)
    requires TrustStep(codec, before, key, after, took) && Stored(before, codec) == Some(TrustAll(calls))
    ensures Stored(after, codec) == Some(TrustAll(if took && key.Success? then calls + [key.value] else calls))
  {
    if took {
      TrustOneMore(calls, key.value);
    }
  }

  lemma TrustOneMore(calls: seq<TrustKey>, k: TrustKey)
    ensures TrustAll(calls + [k]) == Updated(TrustAll(calls), k)
  {
    assert (calls + [k])[..|calls|] == calls;
  }

  /** A key counts as trusted exactly when it is the last one that took effect for its repository. */
  lemma TrustedMeansLast(codec: Codec, disks: seq<Disk>, keys: seq<Result<TrustKey, string>>, took: seq<bool>,
                         k: TrustKey)
    requires TrustRun(codec, disks, keys, took) && TRUST_FILE_NAME !in disks[0].entries
    ensures var calls := Effective(keys, took, |keys|);
      && Stored(disks[|keys|], codec).Some?
      && (k in Stored(disks[|keys|], codec).value <==>
           k.repo in LastTrusted(calls) && LastTrusted(calls)[k.repo] == k.digest)
  {
    StoreFollowsCalls(codec, disks, keys, took, |keys|);
    StoreIsMap(Effective(keys, took, |keys|));
  }

  class TrustStore {
    const directory: StateDirectory
    const codec: Codec

    constructor (directory: StateDirectory, codec: Codec)
      ensures this.directory == directory && this.codec == codec
    {
      this.directory, this.codec := directory, codec;
    }

    /** Opens, tightens and reads the file; `readable` is whether those calls succeed. */
    method Load(readable: bool) returns (r: Result<seq<TrustKey>, string>)
      ensures r.Success? ==> Stored(directory.disk, codec) == Some(r.value)
      ensures r.Success? <==> Loadable(directory.disk, codec, readable)
      ensures var d := directory.disk;
        if TRUST_FILE_NAME !in d.entries then r == Success([])
        else
          var node := d.entries[TRUST_FILE_NAME];
          if !readable || node !in d.nodes || !d.nodes[node].Regular? || codec.parse(d.nodes[node].data).None? then
            r.Failure?
          else r.Success? && Some(r.value) == codec.parse(d.nodes[node].data)
    {
      var d := directory.disk;
      if TRUST_FILE_NAME !in d.entries {
        return Success([]);
      }
      var node := d.entries[TRUST_FILE_NAME];
      if node !in d.nodes || !d.nodes[node].Regular? {
        return Failure("trust store is not a regular file");
      }
      if !readable {
        return Failure("failed to read trust store");
      }
      var keys := codec.parse(d.nodes[node].data);
      return if keys.Some? then Success(keys.value) else Failure("failed to parse trust store");
    }

    /** `key` is the canonical repository with its command digest, or why there is none. */
    method IsTrusted(key: Result<TrustKey, string>, readable: bool) returns (r: Result<bool, string>)
      ensures r.Success? <==> key.Success? && Loadable(directory.disk, codec, readable)
      ensures r.Success? ==> (r.value <==> key.value in Stored(directory.disk, codec).value)
    {
      if key.Failure? {
        return Failure(key.error);
      }
      var keys := Load(readable);
      if keys.Failure? {
        return Failure(keys.error);
      }
      return Success(key.value in keys.value);
    }

    /** Retain everything else, push the new key, and replace the file. */
    method Trust(key: Result<TrustKey, string>, readable: bool, node: nat, io: Io)
      returns (r: Result<(), string>, ghost took: bool)
      requires Valid(directory.disk) && node !in directory.disk.nodes && RoundTrips(codec)
      requires directory.trace != [] && directory.trace[|directory.trace| - 1] == directory.disk
      modifies directory
      ensures Valid(directory.disk)
      ensures r.Success? <==>
        && key.Success? && Loadable(old(directory.disk), codec, readable) && AllSucceed(io)
        && SomeTryIsFree(old(directory.disk).entries, io)
      ensures TrustStep(codec, old(directory.disk), key, directory.disk, took) && (r.Success? <==> took && io.syncDir)
      ensures old(directory.trace) <= directory.trace
      ensures directory.disk != old(directory.disk) ==> key.Success? && old(Stored(directory.disk, codec)).Some?
      ensures key.Success? && old(Stored(directory.disk, codec)).Some? ==>
        var bytes := codec.render(Updated(old(Stored(directory.disk, codec)).value, key.value));
        SafeSince(directory.trace, |old(directory.trace)|, old(directory.disk), TRUST_FILE_NAME, bytes)
    {
      took := false;
      if key.Failure? {
        return Failure(key.error), false;
      }
      var loaded := Load(readable);
      if loaded.Failure? {
        return Failure(loaded.error), false;
      }
      var keys := Retain(loaded.value, key.value.repo);
      keys := keys + [key.value];
      assert TRUST_FILE_NAME[0] == 't' && TEMP_PREFIX[0] == '.';
      r, took := directory.WriteOwnerOnly(TRUST_FILE_NAME, codec.render(keys), node, io);
    }
  }
}
