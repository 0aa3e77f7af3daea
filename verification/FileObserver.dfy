/**
 * The file observer of sidecar/observer_files.go: a capped scan of the watched roots, and the
 * difference between two scans sent as events. A walk is given by the files it would record, in
 * order; which files the walk skips is not modelled.
 */
module FileObserver {
  datatype Entry = Entry(path: string, modified: int)

  datatype Event = Created(path: string) | Modified(path: string) | Deleted(path: string)

  type Snapshot = map<string, int>

  const MAX_ENTRIES: nat := 20000
  const MAX_EMITS: nat := 100

  function Flat(roots: seq<seq<Entry>>): seq<Entry> {
    if roots == [] then [] else Flat(roots[..|roots| - 1]) + roots[|roots| - 1]
  }

  function SnapshotOf(entries: seq<Entry>): Snapshot {
    if entries == [] then map[]
    else SnapshotOf(entries[..|entries| - 1])[entries[|entries| - 1].path := entries[|entries| - 1].modified]
  }

  function Capped(entries: seq<Entry>): seq<Entry> {
    if |entries| <= MAX_ENTRIES then entries else entries[..MAX_ENTRIES]
  }

  /** The scan says that the watch tree exceeds the cap. */
  predicate Warns(roots: seq<seq<Entry>>) {
    |Flat(roots)| >= MAX_ENTRIES
  }

  /** Some file of the watch tree is not recorded: its path is not in the snapshot. */
  predicate Misses(roots: seq<seq<Entry>>) {
    exists i :: 0 <= i < |Flat(roots)| && Flat(roots)[i].path !in SnapshotOf(Capped(Flat(roots)))
  }

  predicate HasPath(entries: seq<Entry>, path: string) {
    exists i :: 0 <= i < |entries| && entries[i].path == path
  }

  /** No file is met twice. The walk of one root never does; roots that overlap do. */
  predicate PathsDiffer(entries: seq<Entry>) {
    forall i, j :: 0 <= i < j < |entries| ==> entries[i].path != entries[j].path
  }

  lemma {:induction false} SnapshotPaths(entries: seq<Entry>, path: string)
    ensures path in SnapshotOf(entries) <==> HasPath(entries, path)
  {
    if entries != [] {
      var rest, last := entries[..|entries| - 1], entries[|entries| - 1];
      SnapshotPaths(rest, path);
      if HasPath(rest, path) {
        var i :| 0 <= i < |rest| && rest[i].path == path;
        assert entries[i].path == path;
      }
      if HasPath(entries, path) && path != last.path {
        var i :| 0 <= i < |entries| && entries[i].path == path;
        assert rest[i].path == path;
      }
    }
  }

  /** A file met beyond the cap at a path not met by then. */
  predicate MetTooLate(files: seq<Entry>, i: nat) {
    MAX_ENTRIES <= i < |files| && !HasPath(files[..MAX_ENTRIES], files[i].path)
  }

  lemma {:induction false} NotRecorded(files: seq<Entry>, i: nat)
    requires i < |files|
    ensures files[i].path !in SnapshotOf(Capped(files)) <==> MetTooLate(files, i)
  {
    SnapshotPaths(Capped(files), files[i].path);
    if i < |Capped(files)| {
      assert Capped(files)[i] == files[i];
    }
  }

  /** A file is missed exactly if the walks go on beyond the cap to a path they had not met by then. */
  lemma {:induction false} MissesExactly(roots: seq<seq<Entry>>)
    ensures Misses(roots) <==> exists i: nat :: MetTooLate(Flat(roots), i)
  {
    var files := Flat(roots);
    if Misses(roots) {
      var i: nat :| i < |files| && files[i].path !in SnapshotOf(Capped(files));
      NotRecorded(files, i);
      assert MetTooLate(files, i);
    }
    if i: nat :| MetTooLate(files, i) {
      NotRecorded(files, i);
      assert Flat(roots)[i].path !in SnapshotOf(Capped(Flat(roots)));
    }
  }

  /**
   * When the warning is right: for files met once each, exactly when there are more of them than the
   * cap, and then it is wrong for exactly as many as the cap. Whatever the roots, a warning is wrong
   * exactly when the cap was reached and every file met after it repeats one met before, and no
   * missed file goes without a warning.
   */
  lemma {:induction false} WarningExactly(roots: seq<seq<Entry>>)
    ensures var files := Flat(roots);
            && (Misses(roots) ==> Warns(roots))
            && (Warns(roots) && !Misses(roots) <==> |files| >= MAX_ENTRIES && forall i: nat :: !MetTooLate(files, i))
            && (PathsDiffer(files) ==>
                && (Warns(roots) && Misses(roots) <==> |files| > MAX_ENTRIES)
                && (Warns(roots) && !Misses(roots) <==> |files| == MAX_ENTRIES))
  {
    MissesExactly(roots);
    var files := Flat(roots);
    if |files| > MAX_ENTRIES && PathsDiffer(files) {
      assert MetTooLate(files, MAX_ENTRIES);
    }
  }

  /** n files of one directory, each met once. */
  function Directory(n: nat): (files: seq<Entry>)
    ensures |files| == n && PathsDiffer(files)
  {
    var name := (i: nat) => seq(i, _ => 'f');
    assert forall i: nat :: |name(i)| == i;
    seq(n, i requires 0 <= i => Entry(name(i), 0))
  }

  /** It is wrong for one root with exactly as many files as the cap. */
  lemma WarningCanBeWrong()
    ensures exists roots: seq<seq<Entry>> ::
              |roots| == 1 && PathsDiffer(roots[0]) && |roots[0]| == MAX_ENTRIES && Warns(roots) && !Misses(roots)
  {
    var roots := [Directory(MAX_ENTRIES)];
    assert roots[..0] == [] && Flat(roots) == [] + roots[0] == roots[0];
    WarningExactly(roots);
  }

  lemma TwiceWalkedWarnsWrongly(root: seq<Entry>)
    requires |root| < MAX_ENTRIES <= 2 * |root|
    ensures Warns([root, root]) && !Misses([root, root])
  {
    var files := Flat([root, root]);
    assert [root][..0] == [] && Flat([root]) == [] + root == root;
    assert [root, root][..1] == [root] && files == root + root;
    forall i | MAX_ENTRIES <= i < |files| ensures HasPath(files[..MAX_ENTRIES], files[i].path) {
      assert files[..MAX_ENTRIES][i - |root|] == files[i];
    }
    WarningExactly([root, root]);
  }

  /** It is also wrong for a root given twice, which is walked twice though nothing in it is missed. */
  lemma OverlapCanWarnWrongly()
    ensures exists root: seq<Entry> ::
              PathsDiffer(root) && |root| < MAX_ENTRIES && Warns([root, root]) && !Misses([root, root])
  {
    TwiceWalkedWarnsWrongly(Directory(15000));
  }

  lemma {:induction false} FlatPrefix(roots: seq<seq<Entry>>, i: nat)
    requires i <= |roots|
    ensures Flat(roots[..i]) <= Flat(roots)
    decreases |roots| - i
  {
    if i == |roots| {
      assert roots[..i] == roots;
    } else {
      assert roots[..i + 1][..i] == roots[..i];
      FlatPrefix(roots, i + 1);
    }
  }

  /** The changes from one scan to the next, one per path that differs. */
  function Changes(prev: Snapshot, current: Snapshot): set<Event> {
    (set p | p in current && p !in prev :: Created(p))
    + (set p | p in current && p in prev && current[p] != prev[p] :: Modified(p))
    + (set p | p in prev && p !in current :: Deleted(p))
  }

  class Observer {
    var known: Snapshot
    var truncated: bool

    constructor ()
      ensures known == map[] && !truncated
    {
      known, truncated := map[], false;
    }

    method WalkRoot(snapshot: Snapshot, count: nat, files: seq<Entry>, ghost before: seq<Entry>)
      returns (s: Snapshot, c: nat, stopped: bool)
      requires count == |before| < MAX_ENTRIES && snapshot == SnapshotOf(before)
      ensures c == |Capped(before + files)| && s == SnapshotOf(Capped(before + files))
      ensures stopped <==> |before + files| >= MAX_ENTRIES
    {
      s, c, stopped := snapshot, count, false;
      assert before + files[..0] == before;
      for i := 0 to |files|
        invariant c == |before| + i < MAX_ENTRIES && s == SnapshotOf(before + files[..i])
      {
        s := s[files[i].path := files[i].modified];
        c := c + 1;
        assert (before + files[..i + 1])[..|before| + i] == before + files[..i];
        if c >= MAX_ENTRIES {
          stopped := true;
          assert Capped(before + files) == before + files[..i + 1];
          return;
        }
      }
      assert files[..|files|] == files;
    }

    /** The scan records the first 20000 files and reports the cap when it has recorded that many. */
    method Scan(roots: seq<seq<Entry>>) returns (snapshot: Snapshot)
      modifies `truncated
      ensures snapshot == SnapshotOf(Capped(Flat(roots)))
      ensures truncated <==> Warns(roots)
    {
      snapshot := map[];
      var count: nat := 0;
      truncated := false;
      for i := 0 to |roots|
        invariant count == |Capped(Flat(roots[..i]))| && snapshot == SnapshotOf(Capped(Flat(roots[..i])))
        invariant truncated <==> |Flat(roots[..i])| >= MAX_ENTRIES
      {
        FlatPrefix(roots, i);
        if count >= MAX_ENTRIES {
          truncated := true;
          assert Capped(Flat(roots)) == Capped(Flat(roots[..i]));
          return;
        }
        assert roots[..i + 1][..i] == roots[..i];
        snapshot, count, truncated := WalkRoot(snapshot, count, roots[i], Flat(roots[..i]));
      }
      assert roots[..|roots|] == roots;
    }

    /** The first scan is the baseline and sends nothing. */
    method Seed(roots: seq<seq<Entry>>)
      modifies this
      ensures known == SnapshotOf(Capped(Flat(roots)))
    {
      known := Scan(roots);
    }

    /** One poll: distinct changes, as many as there are up to 100, and the new scan becomes the known one. */
    method Poll(roots: seq<seq<Entry>>) returns (events: seq<Event>)
      modifies this
      ensures known == SnapshotOf(Capped(Flat(roots)))
      ensures forall e :: e in events ==> e in Changes(old(known), known)
      ensures forall i, j :: 0 <= i < j < |events| ==> events[i].path != events[j].path
      ensures |events| <= MAX_EMITS
      ensures |events| < MAX_EMITS ==> forall e :: e in Changes(old(known), known) ==> e in events
    {
      var current := Scan(roots);
      var prev := known;
      known := current;
      events := SendPresent(prev, current);
      events := SendDeleted(prev, current, events);
    }

    method SendPresent(prev: Snapshot, current: Snapshot) returns (events: seq<Event>)
      ensures Sent(events, prev, current, current.Keys)
    {
      events := [];
      var todo := current.Keys;
      while todo != {}
        invariant todo <= current.Keys
        invariant Sent(events, prev, current, current.Keys - todo)
      {
        var path :| path in todo;
        ghost var done := current.Keys - todo;
        todo := todo - {path};
        if path !in prev {
          events := Emit(events, Created(path), prev, current, done);
        } else if current[path] != prev[path] {
          events := Emit(events, Modified(path), prev, current, done);
        }
        assert current.Keys - todo == done + {path};
      }
    }

    method SendDeleted(prev: Snapshot, current: Snapshot, sent: seq<Event>) returns (events: seq<Event>)
      requires Sent(sent, prev, current, current.Keys)
      ensures Sent(events, prev, current, current.Keys + prev.Keys)
    {
      events := sent;
      var todo := prev.Keys;
      while todo != {}
        invariant todo <= prev.Keys
        invariant Sent(events, prev, current, current.Keys + (prev.Keys - todo))
      {
        var path :| path in todo;
        ghost var done := current.Keys + (prev.Keys - todo);
        todo := todo - {path};
        if path !in current {
          events := Emit(events, Deleted(path), prev, current, done);
        }
        assert current.Keys + (prev.Keys - todo) == done + {path};
      }
    }

    method Emit(sent: seq<Event>, e: Event, ghost prev: Snapshot, ghost current: Snapshot, ghost done: set<string>)
      returns (events: seq<Event>)
      requires Sent(sent, prev, current, done) && e in Changes(prev, current) && e.path !in done
      ensures Sent(events, prev, current, done + {e.path})
    {
      if |sent| >= MAX_EMITS {
        return sent;
      }
      events := sent + [e];
    }
  }

  /** The events sent for the paths done: distinct, real, and all of them unless the cap was reached. */
  ghost predicate Sent(events: seq<Event>, prev: Snapshot, current: Snapshot, done: set<string>) {
    && |events| <= MAX_EMITS
    && (forall e :: e in events ==> e in Changes(prev, current) && e.path in done)
    && (forall i, j :: 0 <= i < j < |events| ==> events[i].path != events[j].path)
    && (|events| < MAX_EMITS ==> forall e :: e in Changes(prev, current) && e.path in done ==> e in events)
  }

  /** What a listener makes of an event, if it looks up the file's time itself. */
  function Applied(known: Snapshot, e: Event, current: Snapshot): Snapshot {
    if e.Deleted? then known - {e.path} else if e.path in current then known[e.path := current[e.path]] else known
  }

  function Replayed(known: Snapshot, events: seq<Event>, current: Snapshot): Snapshot {
    if events == [] then known else Applied(Replayed(known, events[..|events| - 1], current), events[|events| - 1], current)
  }

  predicate Touches(events: seq<Event>, path: string) {
    exists i :: 0 <= i < |events| && events[i].path == path
  }

  predicate SameAt(a: Snapshot, b: Snapshot, path: string) {
    (path in a <==> path in b) && (path in a && path in b ==> a[path] == b[path])
  }

  lemma {:induction false} ReplayAt(prev: Snapshot, events: seq<Event>, current: Snapshot, path: string)
    requires forall i :: 0 <= i < |events| ==> events[i] in Changes(prev, current)
    ensures SameAt(Replayed(prev, events, current), if Touches(events, path) then current else prev, path)
  {
    if events != [] {
      var rest, last := events[..|events| - 1], events[|events| - 1];
      ReplayAt(prev, rest, current, path);
      assert last.path == path || (Touches(events, path) <==> Touches(rest, path)) by {
        if last.path != path && Touches(events, path) {
          var i :| 0 <= i < |events| && events[i].path == path;
          assert rest[i].path == path;
        }
      }
    }
  }

  /** Below the cap the events are exactly the difference: replayed on the earlier scan they give the later one. */
  lemma {:induction false} BelowCapEventsAreTheDifference(prev: Snapshot, events: seq<Event>, current: Snapshot)
    requires forall e :: e in events <==> e in Changes(prev, current)
    ensures Replayed(prev, events, current) == current
  {
    var r := Replayed(prev, events, current);
    forall path ensures SameAt(r, current, path) {
      ReplayAt(prev, events, current, path);
      if !SameAt(prev, current, path) {
        var e := if path !in prev then Created(path) else if path in current then Modified(path) else Deleted(path);
        assert e in events;
        assert Touches(events, path);
      }
    }
    assert r.Keys == current.Keys by {
      forall path ensures path in r <==> path in current {
        assert SameAt(r, current, path);
      }
    }
    assert forall path :: path in r ==> SameAt(r, current, path);
  }
}
