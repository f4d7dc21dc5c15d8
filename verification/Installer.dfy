/** The installer's transaction (`apply` in tools/internal/engine.py): stage everything, then move each
    original aside and its replacement in; after a failure at any point, move everything back. */
module Installer {

  datatype Content = Content(id: int)

  /** A directory or target by its names from the project root down; the root itself is []. */
  type Path = seq<nat>

  /** Operation i's own places: its target in the project, its replacement and its original in the
      transaction directory. */
  datatype Loc = Target(i: nat) | Staged(i: nat) | Backup(i: nat)

  type Store = map<Loc, Content>

  /** What one operation wants where; a whole tree moves as one. */
  datatype Operation = Operation(path: Path, replacement: Content)

  /** Whether the target existed when it was staged. */
  datatype Record = Record(original: bool)

  /** How apply ends: everything replaced; everything as before; or the transaction directory kept, with
      whatever could not be moved back. */
  datatype Outcome = Committed | RolledBack | Retained

  function Parent(p: Path): Path
    requires p != []
  {
    p[..|p| - 1]
  }

  /** Directories come with their ancestors. */
  ghost predicate Rooted(dirs: set<Path>) { [] in dirs && forall d :: d in dirs && d != [] ==> Parent(d) in dirs }

  /** No destination is the root, lies inside another, or equals it. */
  predicate Apart(ops: seq<Operation>) {
    && (forall i :: 0 <= i < |ops| ==> ops[i].path != [])
    && (forall i, j :: 0 <= i < |ops| && 0 <= j < |ops| && i != j ==> !(ops[i].path <= ops[j].path))
  }

  /** The project at the start: what each target holds, and the directories. */
  datatype Start = Start(ops: seq<Operation>, originals: map<nat, Content>, dirs: set<Path>)

  ghost predicate Sensible(s: Start) {
    Apart(s.ops) && Rooted(s.dirs) && forall i :: i in s.originals ==> i < |s.ops| && Parent(s.ops[i].path) in s.dirs
  }

  // ---------- the three conditions of an operation ----------

  /** The original, or its absence, is at the target. */
  predicate Waiting(s: Start, at: Store, i: nat) {
    Backup(i) !in at && (Target(i) in at <==> i in s.originals) && (i in s.originals ==> at[Target(i)] == s.originals[i])
  }

  /** The original is aside, the replacement not yet in. */
  predicate Aside(s: Start, at: Store, i: nat) {
    Target(i) !in at && Staged(i) in at && i in s.originals && Backup(i) in at && at[Backup(i)] == s.originals[i]
  }

  /** The replacement is in; the original, if there was one, is aside. */
  predicate Installed(s: Start, at: Store, i: nat) {
    && i < |s.ops| && Target(i) in at && at[Target(i)] == s.ops[i].replacement && Staged(i) !in at
    && (Backup(i) in at <==> i in s.originals) && (i in s.originals ==> at[Backup(i)] == s.originals[i])
  }

  predicate Placed(s: Start, at: Store, i: nat) { Waiting(s, at, i) || Aside(s, at, i) || Installed(s, at, i) }

  ghost predicate Intact(s: Start, at: Store) { forall i: nat :: Placed(s, at, i) }

  /** Every original is at its target or at its backup, unchanged. */
  ghost predicate NothingLost(s: Start, at: Store) {
    forall i: nat :: i in s.originals ==>
      (Target(i) in at && at[Target(i)] == s.originals[i]) || (Backup(i) in at && at[Backup(i)] == s.originals[i])
  }

  lemma IntactLosesNothing(s: Start, at: Store)
    requires Intact(s, at)
    ensures NothingLost(s, at)
  {
    forall i: nat | i in s.originals
      ensures (Target(i) in at && at[Target(i)] == s.originals[i]) || (Backup(i) in at && at[Backup(i)] == s.originals[i])
    {
      assert Placed(s, at, i);
    }
  }

  /** Every operation waits: nothing of it has happened, or all of it is undone. */
  ghost predicate Restored(s: Start, at: Store) { forall i: nat :: Waiting(s, at, i) }

  /** What the record list says of the operations it covers; the others have not begun. */
  ghost predicate Recorded(s: Start, at: Store, records: seq<Record>) {
    && |records| <= |s.ops|
    && (forall i :: 0 <= i < |records| ==> records[i].original == (i in s.originals))
    && (forall i :: 0 <= i < |records| && Waiting(s, at, i) ==> Staged(i) in at)
    && (forall i: nat :: i >= |records| ==> Waiting(s, at, i))
  }

  /** Nothing but operation i's places differs. */
  ghost predicate Only(i: nat, a: Store, b: Store) {
    forall l: Loc :: l.i != i ==> (l in a <==> l in b) && (l in a ==> a[l] == b[l])
  }

  lemma Elsewhere(s: Start, a: Store, b: Store, i: nat, j: nat)
    requires Only(i, a, b) && j != i
    ensures Waiting(s, a, j) == Waiting(s, b, j) && Aside(s, a, j) == Aside(s, b, j) && Installed(s, a, j) == Installed(s, b, j)
    ensures Staged(j) in a <==> Staged(j) in b
  {
    assert Target(j).i != i && Staged(j).i != i && Backup(j).i != i;
  }

  /** One operation moves: all are still in one of the three conditions. */
  lemma OneMoved(s: Start, a: Store, b: Store, i: nat, records: seq<Record>)
    requires Only(i, a, b) && Intact(s, a) && Recorded(s, a, records) && i < |records|
    requires Placed(s, b, i) && (Waiting(s, b, i) ==> Staged(i) in b)
    ensures Intact(s, b) && Recorded(s, b, records)
  {
    hide Only, Waiting, Aside, Installed;
    forall j: nat ensures Placed(s, b, j) { assert Placed(s, a, j); if j != i { Elsewhere(s, a, b, i, j); } }
    forall j: nat | j >= |records| ensures Waiting(s, b, j) { Elsewhere(s, a, b, i, j); }
    forall j: nat | j < |records| && Waiting(s, b, j) ensures Staged(j) in b { if j != i { Elsewhere(s, a, b, i, j); } }
  }

  // ---------- directories created on the way ----------

  /** Each created directory is new, and none lies above an earlier one; if no interrupt came between a
      creation and its entry, there are no others. */
  ghost predicate Created(before: set<Path>, dirs: set<Path>, created: seq<Path>, orderly: bool) {
    && Rooted(before) && Rooted(dirs) && before <= dirs
    && (forall k :: 0 <= k < |created| ==> created[k] != [] && created[k] !in before && created[k] in dirs)
    && (forall k, j :: 0 <= j < k < |created| ==> created[j] != created[k] && Parent(created[j]) != created[k])
    && (orderly ==> forall d :: d in dirs ==> d in before || d in created)
  }

  lemma CreatedGrows(before: set<Path>, dirs: set<Path>, created: seq<Path>, p: Path, orderly: bool)
    requires Created(before, dirs, created, orderly) && p != [] && p !in dirs && Parent(p) in dirs
    ensures Created(before, dirs + {p}, created + [p], orderly) && Created(before, dirs + {p}, created + [p], false)
  {
    var c := created + [p];
    forall k, j | 0 <= j < k < |c| ensures c[j] != c[k] && Parent(c[j]) != c[k] {
      if k == |created| { assert c[j] in dirs && (c[j] != [] ==> Parent(c[j]) in dirs); }
    }
  }

  lemma CreatedLoosely(before: set<Path>, dirs: set<Path>, created: seq<Path>, orderly: bool)
    requires Created(before, dirs, created, orderly)
    ensures Created(before, dirs, created, false) && Rooted(dirs)
  {
  }

  lemma UnlistedDirectory(before: set<Path>, dirs: set<Path>, created: seq<Path>, p: Path)
    requires Created(before, dirs, created, false) && p != [] && Parent(p) in dirs
    ensures Created(before, dirs + {p}, created, false)
  {
  }

  class Project {
    const s: Start
    /** What lies at each operation's places. */
    var at: Store
    var dirs: set<Path>

    constructor (start: Start)
      requires Sensible(start)
      ensures s == start && Fresh()
    {
      s, dirs := start, start.dirs;
      at := map i | i in start.originals :: Target(i) := start.originals[i];
    }

    /** Nothing has been moved. */
    ghost predicate Fresh()
      reads this
    {
      Sensible(s) && dirs == s.dirs && Restored(s, at) && forall l :: l in at ==> l.Target?
    }

    // ---------- the file system, with failures ----------

    /** os.replace on one file system: atomic - done, failed, or done and then interrupted. */
    method Rename(from: Loc, to: Loc, calm: bool) returns (ok: bool)
      requires from in at && to !in at
      modifies this`at
      ensures ok ==> at == old(at)[to := old(at)[from]] - {from}
      ensures !ok ==> at == old(at) || at == old(at)[to := old(at)[from]] - {from}
      ensures calm ==> ok
    {
      var done, noticed := *, *;
      if calm { done, noticed := true, true; }
      if done { at := at[to := at[from]] - {from}; }
      ok := done && noticed;
    }

    /** Copying one source into the transaction directory; a failure may leave a part of it. */
    method Stage(i: nat, smooth: bool) returns (ok: bool)
      requires i < |s.ops|
      modifies this`at
      ensures at - {Staged(i)} == old(at) - {Staged(i)}
      ensures ok ==> Staged(i) in at && at[Staged(i)] == s.ops[i].replacement
      ensures smooth ==> ok
    {
      var part: Content := *;
      var any: bool := *;
      ok := *;
      ok := ok || smooth;
      if ok { at := at[Staged(i) := s.ops[i].replacement]; } else if any { at := at[Staged(i) := part]; }
    }

    /** mkdir; an interrupt may come between the call and its entry in the list of created directories. */
    method MakeDir(p: Path, orderly: bool, smooth: bool) returns (ok: bool)
      requires p != [] && Parent(p) in dirs && p !in dirs
      modifies this`dirs
      ensures ok ==> dirs == old(dirs) + {p}
      ensures !ok ==> dirs == old(dirs) || (!orderly && dirs == old(dirs) + {p})
      ensures smooth ==> ok
    {
      var done, noticed := *, *;
      if orderly { noticed := true; }
      if smooth { done, noticed := true, true; }
      if done { dirs := dirs + {p}; }
      ok := done && noticed;
    }

    /** Nothing lies in the directory: no directory, no target. */
    predicate Empty(p: Path)
      reads this
    {
      (forall d | d in dirs :: d != [] ==> Parent(d) != p)
      && (forall i | 0 <= i < |s.ops| :: Target(i) in at && s.ops[i].path != [] ==> Parent(s.ops[i].path) != p)
    }

    /** rmdir refuses a directory that is not empty. */
    method RemoveDir(p: Path, calm: bool) returns (ok: bool)
      modifies this`dirs
      ensures ok ==> dirs == old(dirs) - {p}
      ensures !ok ==> dirs == old(dirs) || dirs == old(dirs) - {p}
      ensures calm && old(Empty(p)) ==> ok
      ensures dirs != old(dirs) ==> old(Empty(p))
    {
      var done, noticed := *, *;
      if calm { done, noticed := true, true; }
      var empty := Empty(p);
      if done && empty { dirs := dirs - {p}; }
      ok := done && noticed && empty;
    }

    /** Removing the transaction directory: any part of it may stay behind. */
    method RemoveTransaction()
      modifies this`at
      ensures forall l: Loc :: l.Target? ==> (l in at <==> l in old(at)) && (l in at ==> at[l] == old(at)[l])
      ensures at.Keys <= old(at).Keys
    {
      var all: bool := *;
      if all { at := map l | l in at && l.Target? :: at[l]; }
    }

    // ---------- staging ----------

    /** Nothing belonging to the project is touched: only staged copies appear. */
    method StageAll(smooth: bool) returns (records: seq<Record>, ok: bool)
      requires Fresh()
      modifies this`at
      ensures Restored(s, at) && Recorded(s, at, records) && (ok ==> |records| == |s.ops|) && (smooth ==> ok)
      ensures forall i :: 0 <= i < |records| ==> Staged(i) in at && at[Staged(i)] == s.ops[i].replacement
    {
      records, ok := [], true;
      while |records| < |s.ops| && ok
        invariant |records| <= |s.ops| && Restored(s, at) && (smooth ==> ok)
        invariant forall i :: 0 <= i < |records| ==> Staged(i) in at && at[Staged(i)] == s.ops[i].replacement
        invariant forall i :: 0 <= i < |records| ==> records[i].original == (i in s.originals)
        decreases |s.ops| - |records|, ok
      {
        var i := |records|;
        ghost var was := at;
        ok := Stage(i, smooth);
        StagedOnly(s, was, at, i);
        assert Waiting(s, at, i);
        if ok { records := records + [Record(Target(i) in at)]; }
      }
    }

    // ---------- committing ----------

    /** The missing ancestors of a target, nearest first. */
    method Missing(path: Path) returns (missing: seq<Path>)
      requires path != [] && Rooted(dirs)
      ensures Chain(missing, dirs)
      ensures if missing == [] then Parent(path) in dirs else missing[0] == Parent(path)
    {
      missing := [];
      var parent := Parent(path);
      while parent !in dirs
        invariant Chain(missing, dirs + {parent}) && forall k :: 0 <= k < |missing| ==> missing[k] !in dirs
        invariant missing != [] ==> Parent(missing[|missing| - 1]) == parent
        invariant if missing == [] then parent == Parent(path) else missing[0] == Parent(path)
        decreases |parent|
      {
        ghost var m := missing;
        missing := missing + [parent];
        parent := Parent(parent);
        ChainGrows(m, dirs, missing[|m|]);
      }
      assert dirs + {parent} == dirs;
    }

    /** Create what is missing, from the top down. */
    method MakeParents(path: Path, created0: seq<Path>, orderly: bool, smooth: bool) returns (created: seq<Path>, ok: bool)
      requires path != [] && Created(s.dirs, dirs, created0, orderly)
      modifies this`dirs
      ensures Created(s.dirs, dirs, created, false) && (ok || orderly ==> Created(s.dirs, dirs, created, orderly))
      ensures (ok ==> Parent(path) in dirs) && (smooth ==> ok)
    {
      CreatedLoosely(s.dirs, dirs, created0, orderly);
      hide Created, Rooted;
      var missing := Missing(path);
      created, ok := created0, true;
      var k := |missing|;
      while k > 0 && ok
        invariant 0 <= k <= |missing| && Created(s.dirs, dirs, created, false) && (ok || orderly ==> Created(s.dirs, dirs, created, orderly))
        invariant (ok ==> Chain(missing[..k], dirs)) && (smooth ==> ok)
        invariant ok ==> (if k > 0 then missing[0] == Parent(path) else Parent(path) in dirs)
        decreases k, ok
      {
        ghost var was := dirs;
        var p := missing[k - 1];
        assert missing[..k][k - 1] == p;
        ok := MakeDir(p, orderly, smooth);
        if ok {
          CreatedGrows(s.dirs, was, created, p, orderly);
          created := created + [p];
          ChainShrinks(missing[..k], was);
          k := k - 1;
          assert missing[..k + 1][..k] == missing[..k];
        } else if dirs != was {
          UnlistedDirectory(s.dirs, was, created, p);
        }
      }
    }

    /** One record: the original aside, the replacement in. Whatever fails leaves every operation in one of
        its three conditions. */
    method Install(i: nat, records: seq<Record>, smooth: bool) returns (ok: bool)
      requires Intact(s, at) && Recorded(s, at, records) && i < |records| && Waiting(s, at, i)
      requires Staged(i) in at && at[Staged(i)] == s.ops[i].replacement
      modifies this`at
      ensures Intact(s, at) && Recorded(s, at, records) && Only(i, old(at), at)
      ensures (ok ==> Installed(s, at, i)) && (smooth ==> ok)
    {
      ok := true;
      ghost var was := at;
      if Target(i) in at {
        ok := Rename(Target(i), Backup(i), smooth);
        assert Waiting(s, at, i) || Aside(s, at, i);
        OneMoved(s, was, at, i, records);
      }
      if ok {
        ok := Rename(Staged(i), Target(i), smooth);
        assert Waiting(s, at, i) || Aside(s, at, i) || Installed(s, at, i);
        OneMoved(s, was, at, i, records);
      }
    }

    /** The commit loop, up to its first failure. */
    method InstallAll(records: seq<Record>, orderly: bool, smooth: bool) returns (created: seq<Path>, ok: bool)
      requires Sensible(s) && dirs == s.dirs && Restored(s, at) && Recorded(s, at, records) && |records| == |s.ops|
      requires forall i :: 0 <= i < |records| ==> Staged(i) in at && at[Staged(i)] == s.ops[i].replacement
      modifies this`at, this`dirs
      ensures Intact(s, at) && Recorded(s, at, records)
      ensures Created(s.dirs, dirs, created, false) && (orderly ==> Created(s.dirs, dirs, created, true))
      ensures (ok ==> forall i :: 0 <= i < |s.ops| ==> Installed(s, at, i)) && (smooth ==> ok)
    {
      created, ok := [], true;
      var n := 0;
      forall j: nat ensures Placed(s, at, j) { assert Waiting(s, at, j); }
      while n < |records| && ok
        invariant 0 <= n <= |records| && Intact(s, at) && Recorded(s, at, records) && (smooth ==> ok)
        invariant Created(s.dirs, dirs, created, false) && (ok || orderly ==> Created(s.dirs, dirs, created, orderly))
        invariant ok ==> forall i :: 0 <= i < n ==> Installed(s, at, i)
        invariant ok ==> forall i :: n <= i < |records| ==> Waiting(s, at, i) && Staged(i) in at && at[Staged(i)] == s.ops[i].replacement
        decreases |records| - n, ok
      {
        created, ok := MakeParents(s.ops[n].path, created, orderly, smooth);
        if ok {
          ghost var was := at;
          ok := Install(n, records, smooth);
          forall j: nat | j != n ensures Installed(s, was, j) == Installed(s, at, j) && Waiting(s, was, j) == Waiting(s, at, j) {
            Elsewhere(s, was, at, n, j);
          }
          assert forall j: nat :: j != n ==> Staged(j).i != n;
          if ok { n := n + 1; }
        }
      }
    }

    // ---------- rolling back ----------

    /** One record undone, as the paths themselves say how far it got. A failure ends this record only. */
    method Undo(i: nat, records: seq<Record>, calm: bool) returns (ok: bool)
      requires Intact(s, at) && Recorded(s, at, records) && i < |records|
      modifies this`at
      ensures Intact(s, at) && Recorded(s, at, records) && Only(i, old(at), at)
      ensures ok ==> Waiting(s, at, i)
      ensures calm ==> ok
    {
      ghost var was := at;
      assert Placed(s, at, i);
      var saved := Backup(i) in at;
      var installed := Staged(i) !in at && Target(i) in at && (saved || !records[i].original);
      ok := true;
      assert installed <==> Installed(s, at, i);
      if installed {
        ok := Rename(Target(i), Staged(i), calm);
        OneMoved(s, was, at, i, records);
      }
      if saved && ok {
        ok := Rename(Backup(i), Target(i), calm);
        OneMoved(s, was, at, i, records);
      }
    }

    /** All records in reverse; errors are collected, not raised. */
    method UndoAll(records: seq<Record>, calm: bool) returns (errors: bool)
      requires Intact(s, at) && Recorded(s, at, records)
      modifies this`at
      ensures Intact(s, at) && Recorded(s, at, records)
      ensures !errors ==> Restored(s, at)
      ensures calm ==> !errors
    {
      errors := false;
      var n := |records|;
      while n > 0
        invariant 0 <= n <= |records| && Intact(s, at) && Recorded(s, at, records)
        invariant !errors ==> forall i: nat :: i >= n ==> Waiting(s, at, i)
        invariant calm ==> !errors
      {
        n := n - 1;
        ghost var was := at;
        var ok := Undo(n, records, calm);
        forall j: nat | j != n ensures Waiting(s, was, j) == Waiting(s, at, j) { Elsewhere(s, was, at, n, j); }
        errors := errors || !ok;
      }
    }

    /** The created directories, in reverse. */
    method RemoveCreated(created: seq<Path>, calm: bool, orderly: bool) returns (errors: bool)
      requires Sensible(s) && Created(s.dirs, dirs, created, false) && (orderly ==> Created(s.dirs, dirs, created, true))
      modifies this`dirs
      ensures s.dirs <= dirs <= old(dirs)
      ensures !errors && orderly ==> dirs == s.dirs
      ensures calm && orderly && Restored(s, at) ==> !errors
    {
      errors := false;
      var n := |created|;
      assert forall k :: 0 <= k < |created| ==> created[k] !in s.dirs;
      assert created[..n] == created;
      hide Created, Rooted, Restored, Sensible, Empty;
      while n > 0
        invariant 0 <= n <= |created| && s.dirs <= dirs <= old(dirs)
        invariant !errors && orderly ==> Created(s.dirs, dirs, created[..n], true)
        invariant calm && orderly && Restored(s, at) ==> !errors
      {
        n := n - 1;
        var p := created[n];
        ghost var c := created[..n + 1];
        assert c[n] == p && c[..n] == created[..n];
        if !errors && orderly {
          if Restored(s, at) { LastIsEmpty(this, c); }
          CreatedShrinks(s.dirs, dirs, c);
        }
        var ok := RemoveDir(p, calm);
        errors := errors || !ok;
      }
      if !errors && orderly { NoneCreated(s.dirs, dirs, created[..0]); }
    }

    /** The whole transaction. `smooth`: nothing fails before the commit is complete; `renames`: no rename fails
        once recovery has begun; `removals`: nor does the removal of an empty directory; `orderly`: no interrupt
        falls between creating a directory and noting it. Successful renames alone restore every target. */
    method Apply(smooth: bool, renames: bool, removals: bool, orderly: bool) returns (outcome: Outcome)
      requires Fresh()
      modifies this
      ensures smooth ==> outcome == Committed
      ensures outcome == Committed ==> forall i :: 0 <= i < |s.ops| ==> Target(i) in at && at[Target(i)] == s.ops[i].replacement
      ensures outcome == RolledBack || (outcome == Retained && renames) ==> AsBefore(s, at)
      ensures outcome == RolledBack && orderly ==> dirs == s.dirs
      ensures outcome == Retained ==> NothingLost(s, at)
      ensures renames && removals && orderly ==> outcome != Retained
      ensures s.dirs <= dirs
    {
      var records, ok := StageAll(smooth);
      var created: seq<Path> := [];
      forall j: nat ensures Placed(s, at, j) { assert Waiting(s, at, j); }
      if ok { created, ok := InstallAll(records, orderly, smooth); }
      ghost var was := at;
      if ok {
        RemoveTransaction();
        forall i | 0 <= i < |s.ops| ensures Target(i) in at && at[Target(i)] == s.ops[i].replacement { assert Installed(s, was, i); }
        return Committed;
      }
      var errors := UndoAll(records, renames);
      was := at;
      var more := RemoveCreated(created, removals, orderly);
      IntactLosesNothing(s, at);
      if errors || more {
        if renames { TargetsRestored(s, was, at); }
        return Retained;
      }
      RemoveTransaction();
      TargetsRestored(s, was, at);
      outcome := RolledBack;
    }
  }

  /** Every target holds its original content, or is absent as it was. */
  ghost predicate AsBefore(s: Start, at: Store) {
    forall i: nat :: (Target(i) in at <==> i in s.originals) && (i in s.originals ==> at[Target(i)] == s.originals[i])
  }

  /** The targets outlive the transaction directory. */
  lemma TargetsRestored(s: Start, a: Store, b: Store)
    requires Restored(s, a) && forall l: Loc :: l.Target? ==> (l in b <==> l in a) && (l in b ==> b[l] == a[l])
    ensures AsBefore(s, b)
  {
    forall i: nat ensures (Target(i) in b <==> i in s.originals) && (i in s.originals ==> b[Target(i)] == s.originals[i]) {
      assert Waiting(s, a, i) && Target(i).Target?;
    }
  }

  // ---------- chains of ancestors ----------

  /** Paths outside dirs, each the parent of the one before, the last one's parent inside. */
  ghost predicate Chain(c: seq<Path>, dirs: set<Path>) {
    && (forall k :: 0 <= k < |c| ==> c[k] != [] && c[k] !in dirs)
    && (forall k :: 0 < k < |c| ==> c[k] == Parent(c[k - 1]))
    && (c != [] ==> Parent(c[|c| - 1]) in dirs)
    && (forall j, k :: 0 <= j < k < |c| ==> |c[j]| > |c[k]|)
  }

  lemma StagedOnly(s: Start, a: Store, b: Store, i: nat)
    requires Restored(s, a) && b - {Staged(i)} == a - {Staged(i)}
    ensures Restored(s, b)
    ensures forall j :: j != i && Staged(j) in a ==> Staged(j) in b && b[Staged(j)] == a[Staged(j)]
  {
    assert forall l :: l != Staged(i) ==> (l in b - {Staged(i)} <==> l in b) && (l in a - {Staged(i)} <==> l in a);
    assert forall l :: l != Staged(i) && l in b ==> (b - {Staged(i)})[l] == b[l] == (a - {Staged(i)})[l] == a[l];
    forall j: nat ensures Waiting(s, b, j) { assert Waiting(s, a, j); }
  }

  lemma ChainGrows(m: seq<Path>, dirs: set<Path>, parent: Path)
    requires Chain(m, dirs + {parent}) && parent !in dirs && parent != [] && (m != [] ==> Parent(m[|m| - 1]) == parent)
    ensures Chain(m + [parent], dirs + {Parent(parent)})
  {
    var c := m + [parent];
    forall k | 0 < k < |c| ensures c[k] == Parent(c[k - 1]) { if k < |m| { assert m[k] == Parent(m[k - 1]); } }
    forall j, k | 0 <= j < k < |c| ensures |c[j]| > |c[k]| {
      if k == |m| { assert |m[j]| >= |m[|m| - 1]|; }
    }
  }

  lemma ChainShrinks(c: seq<Path>, dirs: set<Path>)
    requires Chain(c, dirs) && c != []
    ensures Chain(c[..|c| - 1], dirs + {c[|c| - 1]})
  {
    var n := |c| - 1;
    if n > 0 { assert c[n] == Parent(c[n - 1]); }
  }

  lemma CreatedShrinks(before: set<Path>, dirs: set<Path>, c: seq<Path>)
    requires Created(before, dirs, c, true) && c != []
    ensures Created(before, dirs - {c[|c| - 1]}, c[..|c| - 1], true)
  {
    var p := c[|c| - 1];
    forall d | d in dirs - {p} && d != [] ensures Parent(d) in dirs - {p} {
      assert Parent(d) in dirs;
      if d in c { var k :| 0 <= k < |c| && c[k] == d; assert k < |c| - 1; }
    }
    assert c == c[..|c| - 1] + [p];
  }

  lemma NoneCreated(before: set<Path>, dirs: set<Path>, c: seq<Path>)
    requires Created(before, dirs, c, true) && c == []
    ensures dirs == before
  {
  }

  /** Once every target is as it was, a created directory holds nothing but directories created after it. */
  lemma LastIsEmpty(r: Project, c: seq<Path>)
    requires Sensible(r.s) && Restored(r.s, r.at) && Created(r.s.dirs, r.dirs, c, true) && c != []
    ensures r.Empty(c[|c| - 1])
  {
    var p := c[|c| - 1];
    forall d | d in r.dirs && d != [] ensures Parent(d) != p {
      if d in c { var k :| 0 <= k < |c| && c[k] == d; if k == |c| - 1 { assert |Parent(d)| < |p|; } }
    }
    forall i | 0 <= i < |r.s.ops| && Target(i) in r.at && r.s.ops[i].path != [] ensures Parent(r.s.ops[i].path) != p {
      assert Waiting(r.s, r.at, i);
    }
  }
}
