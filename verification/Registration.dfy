/**
  Reading `git worktree list --porcelain -z` (`worktree_registration`, core/src/safety/git.rs): the
  NUL-separated fields of all records in a row, one character a byte.
 */
module Registration {
  import opened Wrappers

  const WORKTREE := "worktree "
  const LOCKED := "locked"
  const LOCKED_REASON := "locked "

  datatype Listed = Listed(present: bool, locked: bool)

  predicate Names(field: string, path: string) {
    field == WORKTREE + path
  }

  predicate Opens(field: string) {
    WORKTREE <= field
  }

  predicate Locks(field: string) {
    field == LOCKED || LOCKED_REASON <= field
  }

  /** Field `l` belongs to the record that field `k` opens. */
  predicate InRecord(fields: seq<string>, k: int, l: int) {
    0 <= k < l < |fields| && forall i :: k < i <= l ==> !Opens(fields[i])
  }

  ghost predicate IsListed(fields: seq<string>, path: string) {
    exists k :: 0 <= k < |fields| && Names(fields[k], path)
  }

  ghost predicate IsLocked(fields: seq<string>, path: string) {
    exists k, l :: InRecord(fields, k, l) && Names(fields[k], path) && Locks(fields[l])
  }

  /** The record that the last field belongs to names the path. */
  ghost predicate Selected(fields: seq<string>, path: string) {
    exists k :: 0 <= k < |fields| && Names(fields[k], path) && forall i :: k < i < |fields| ==> !Opens(fields[i])
  }

  lemma ListedStep(before: seq<string>, field: string, path: string)
    ensures IsListed(before + [field], path) <==> IsListed(before, path) || Names(field, path)
  {
    var fields := before + [field];
    if Names(field, path) {
      assert Names(fields[|before|], path);
    }
    if IsListed(before, path) {
      var k :| 0 <= k < |before| && Names(before[k], path);
      assert Names(fields[k], path);
    }
  }

  lemma SelectedStep(before: seq<string>, field: string, path: string)
    ensures Selected(before + [field], path) <==> if Opens(field) then Names(field, path) else Selected(before, path)
  {
    var fields := before + [field];
    if Names(field, path) {
      assert Opens(field) && Names(fields[|before|], path);
    }
    if Selected(before, path) && !Opens(field) {
      var k :| 0 <= k < |before| && Names(before[k], path) && forall i :: k < i < |before| ==> !Opens(before[i]);
      assert Names(fields[k], path);
    }
    if Selected(fields, path) {
      var k :| 0 <= k < |fields| && Names(fields[k], path) && forall i :: k < i < |fields| ==> !Opens(fields[i]);
      if k < |before| {
        assert !Opens(fields[|before|]);
        forall i | k < i < |before| ensures !Opens(before[i]) {
          assert !Opens(fields[i]);
        }
        assert Names(before[k], path);
      }
    }
  }

  lemma LockedStep(before: seq<string>, field: string, path: string)
    ensures IsLocked(before + [field], path) <==>
      IsLocked(before, path) || (!Opens(field) && Selected(before, path) && Locks(field))
  {
    var fields, n := before + [field], |before|;
    if IsLocked(before, path) {
      var k, l :| InRecord(before, k, l) && Names(before[k], path) && Locks(before[l]);
      assert InRecord(fields, k, l) && Names(fields[k], path) && Locks(fields[l]);
    }
    if Selected(before, path) && !Opens(field) && Locks(field) {
      var k :| 0 <= k < n && Names(before[k], path) && forall i :: k < i < n ==> !Opens(before[i]);
      assert InRecord(fields, k, n) && Names(fields[k], path) && Locks(fields[n]);
    }
    if IsLocked(fields, path) {
      var k, l :| InRecord(fields, k, l) && Names(fields[k], path) && Locks(fields[l]);
      LockedBack(before, field, path, k, l);
    }
  }

  lemma LockedBack(before: seq<string>, field: string, path: string, k: nat, l: nat)
    requires var fields := before + [field]; InRecord(fields, k, l) && Names(fields[k], path) && Locks(fields[l])
    ensures IsLocked(before, path) || (!Opens(field) && Selected(before, path) && Locks(field))
  {
    var fields, n := before + [field], |before|;
    forall i | k < i <= l && i < n ensures !Opens(before[i]) {
      assert !Opens(fields[i]);
    }
    assert Names(before[k], path);
    if l < n {
      assert InRecord(before, k, l) && Locks(before[l]);
    } else {
      assert !Opens(fields[n]);
    }
  }

  lemma FieldRead(before: seq<string>, field: string, path: string)
    ensures var fields := before + [field];
      && (Selected(fields, path) <==> if Opens(field) then Names(field, path) else Selected(before, path))
      && (IsListed(fields, path) <==> IsListed(before, path) || Names(field, path))
      && (IsLocked(fields, path) <==>
           IsLocked(before, path) || (!Opens(field) && Selected(before, path) && Locks(field)))
  {
    SelectedStep(before, field, path);
    ListedStep(before, field, path);
    LockedStep(before, field, path);
  }

  method WorktreeRegistration(fields: seq<string>, expected: string) returns (r: Listed)
    ensures r == Listed(IsListed(fields, expected), IsLocked(fields, expected))
  {
    var present, locked, selected := false, false, false;
    for k := 0 to |fields|
      invariant present == IsListed(fields[..k], expected) && locked == IsLocked(fields[..k], expected)
      invariant selected == Selected(fields[..k], expected)
    {
      FieldRead(fields[..k], fields[k], expected);
      assert fields[..k + 1] == fields[..k] + [fields[k]];
      if WORKTREE <= fields[k] {
        selected := fields[k][|WORKTREE|..] == expected;
        present := present || selected;
      } else if selected && Locks(fields[k]) {
        locked := true;
      }
    }
    assert fields[..|fields|] == fields;
    r := Listed(present, locked);
  }

  // ----- reading back what Git writes -----

  /** One registered worktree: its path, its other attributes, and why it is locked, if it is. */
  datatype Record = Record(path: string, attributes: seq<string>, lock: Option<string>)

  /** Neither a header nor a lock. */
  predicate Other(attribute: string) {
    !("worktree " <= attribute) && attribute != "locked" && !("locked " <= attribute)
  }

  predicate Plain(r: Record) {
    forall i :: 0 <= i < |r.attributes| ==> Other(r.attributes[i])
  }

  /** A lock prints its reason, if it has one. */
  function LockField(lock: Option<string>): seq<string> {
    match lock
    case None => []
    case Some(reason) => if reason == "" then ["locked"] else ["locked " + reason]
  }

  function Printed(r: Record): seq<string> {
    ["worktree " + r.path] + r.attributes + LockField(r.lock) + [""]
  }

  function Listing(records: seq<Record>): seq<string> {
    if records == [] then [] else Listing(records[..|records| - 1]) + Printed(records[|records| - 1])
  }

  predicate AllPlain(records: seq<Record>) {
    forall i :: 0 <= i < |records| ==> Plain(records[i])
  }

  ghost predicate Registered(records: seq<Record>, path: string) {
    exists i :: 0 <= i < |records| && records[i].path == path
  }

  ghost predicate RegisteredLocked(records: seq<Record>, path: string) {
    exists i :: 0 <= i < |records| && records[i].path == path && records[i].lock.Some?
  }

  /** Reading on from `before` to `fields` added nothing, but for a lock when `locked`. */
  ghost predicate AddsLock(before: seq<string>, fields: seq<string>, path: string, locked: bool) {
    && (Selected(fields, path) <==> Selected(before, path))
    && (IsListed(fields, path) <==> IsListed(before, path))
    && (IsLocked(fields, path) <==> IsLocked(before, path) || (Selected(before, path) && locked))
  }

  lemma AttributeRead(before: seq<string>, fields: seq<string>, path: string, locked: bool, attribute: string)
    requires AddsLock(before, fields, path, locked) && !Opens(attribute)
    ensures AddsLock(before, fields + [attribute], path, locked || Locks(attribute))
  {
    FieldRead(fields, attribute, path);
    assert !Names(attribute, path);
  }

  /** Reading the other attributes of a record adds nothing. */
  lemma {:induction false} AttributesRead(before: seq<string>, attributes: seq<string>, path: string)
    requires forall i :: 0 <= i < |attributes| ==> Other(attributes[i])
    ensures AddsLock(before, before + attributes, path, false)
    decreases |attributes|
  {
    if attributes == [] {
      assert before + attributes == before;
    } else {
      var front, last := attributes[..|attributes| - 1], attributes[|attributes| - 1];
      AttributesRead(before, front, path);
      AttributeRead(before, before + front, path, false, last);
      assert before + attributes == before + front + [last];
    }
  }

  /** Reading the lock adds it, with or without a reason. */
  lemma LockRead(before: seq<string>, lock: Option<string>, path: string)
    ensures AddsLock(before, before + LockField(lock), path, lock.Some?)
  {
    if lock.None? {
      assert before + LockField(lock) == before;
    } else {
      var field := LockField(lock)[0];
      assert field[0] == 'l' && "worktree "[0] == 'w';
      assert "locked " <= "locked " + lock.value;
      AttributeRead(before, before, path, false, field);
      assert LockField(lock) == [field];
    }
  }

  lemma AddsNothing(before: seq<string>, mid: seq<string>, fields: seq<string>, path: string, locked: bool)
    requires AddsLock(before, mid, path, false) && AddsLock(mid, fields, path, locked)
    ensures AddsLock(before, fields, path, locked)
  {
  }

  lemma RecordRead(before: seq<string>, r: Record, path: string)
    requires Plain(r)
    ensures var fields := before + Printed(r);
      && (IsListed(fields, path) <==> IsListed(before, path) || r.path == path)
      && (IsLocked(fields, path) <==> IsLocked(before, path) || (r.path == path && r.lock.Some?))
  {
    var header := "worktree " + r.path;
    FieldRead(before, header, path);
    assert Names(header, path) <==> r.path == path by {
      assert header[|WORKTREE|..] == r.path && (WORKTREE + path)[|WORKTREE|..] == path;
    }
    var headed := before + [header];
    AttributesRead(headed, r.attributes, path);
    LockRead(headed + r.attributes, r.lock, path);
    AddsNothing(headed, headed + r.attributes, headed + r.attributes + LockField(r.lock), path, r.lock.Some?);
    FieldRead(headed + r.attributes + LockField(r.lock), "", path);
    assert before + Printed(r) == headed + r.attributes + LockField(r.lock) + [""];
  }

  lemma RegisteredStep(front: seq<Record>, last: Record, path: string)
    ensures Registered(front + [last], path) <==> Registered(front, path) || last.path == path
    ensures RegisteredLocked(front + [last], path) <==>
      RegisteredLocked(front, path) || (last.path == path && last.lock.Some?)
  {
    var all := front + [last];
    if Registered(front, path) {
      var i :| 0 <= i < |front| && front[i].path == path;
      assert all[i].path == path;
    }
    if last.path == path {
      assert all[|front|].path == path;
    }
    if RegisteredLocked(front, path) {
      var i :| 0 <= i < |front| && front[i].path == path && front[i].lock.Some?;
      assert all[i].path == path && all[i].lock.Some?;
    }
  }

  /** For every list of worktrees Git can print, the answer is whether the path is among them, and locked. */
  lemma {:induction false} ListingReadsBack(records: seq<Record>, path: string)
    requires AllPlain(records)
    ensures IsListed(Listing(records), path) <==> Registered(records, path)
    ensures IsLocked(Listing(records), path) <==> RegisteredLocked(records, path)
  {
    if records != [] {
      var n := |records| - 1;
      var front, last := records[..n], records[n];
      ListingReadsBack(front, path);
      RecordRead(Listing(front), last, path);
      RegisteredStep(front, last, path);
      assert records == front + [last];
    }
  }
}
