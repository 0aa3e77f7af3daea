/**
 * The process observer of sidecar/observer_process.go: a seeded map of known processes, polled
 * against the platform's list, with an event per start and stop.
 */
module ProcessObserver {
  import opened Options

  datatype Process = Process(pid: nat, name: string)

  datatype Event = Started(pid: nat, name: string) | Stopped(pid: nat, name: string)

  type Known = map<nat, string>

  function Pids(procs: seq<Process>): set<nat> {
    set p | p in procs :: p.pid
  }

  lemma PidsAppend(procs: seq<Process>, i: nat)
    requires i < |procs|
    ensures Pids(procs[..i + 1]) == Pids(procs[..i]) + {procs[i].pid}
  {
    assert procs[..i + 1] == procs[..i] + [procs[i]];
  }

  /** What a listener that follows the events makes of them. */
  function Replayed(known: Known, events: seq<Event>): Known {
    if events == [] then known
    else
      var before := Replayed(known, events[..|events| - 1]);
      var e := events[|events| - 1];
      if e.Started? then before[e.pid := e.name] else before - {e.pid}
  }

  /** Nothing starts while it is running, and what stops is running under that very name. */
  predicate Follows(known: Known, e: Event) {
    if e.Started? then e.pid !in known else e.pid in known && known[e.pid] == e.name
  }

  predicate Legal(known: Known, events: seq<Event>) {
    forall i :: 0 <= i < |events| ==> Follows(Replayed(known, events[..i]), events[i])
  }

  lemma {:induction false} ReplayConcat(known: Known, a: seq<Event>, b: seq<Event>)
    ensures Replayed(known, a + b) == Replayed(Replayed(known, a), b)
  {
    if b == [] {
      assert a + b == a;
    } else {
      var n := |a + b| - 1;
      assert (a + b)[..n] == a + b[..|b| - 1] && (a + b)[n] == b[|b| - 1];
      ReplayConcat(known, a, b[..|b| - 1]);
    }
  }

  lemma {:induction false} LegalConcat(known: Known, a: seq<Event>, b: seq<Event>)
    requires Legal(known, a) && Legal(Replayed(known, a), b)
    ensures Legal(known, a + b)
  {
    forall i | 0 <= i < |a + b| ensures Follows(Replayed(known, (a + b)[..i]), (a + b)[i]) {
      if i < |a| {
        assert (a + b)[..i] == a[..i];
      } else {
        assert (a + b)[..i] == a + b[..i - |a|];
        ReplayConcat(known, a, b[..i - |a|]);
      }
    }
  }

  lemma {:induction false} LegalAppend(known: Known, a: seq<Event>, e: Event)
    requires Legal(known, a) && Follows(Replayed(known, a), e)
    ensures Legal(known, a + [e])
    ensures Replayed(known, a + [e]) ==
            if e.Started? then Replayed(known, a)[e.pid := e.name] else Replayed(known, a) - {e.pid}
  {
    assert (a + [e])[..|a|] == a;
    assert [e][..0] == [];
    assert Legal(Replayed(known, a), [e]);
    LegalConcat(known, a, [e]);
  }

  function EventPids(events: seq<Event>): set<nat> {
    set e | e in events :: e.pid
  }

  predicate AllStarts(events: seq<Event>) {
    forall i :: 0 <= i < |events| ==> events[i].Started?
  }

  predicate AllStops(events: seq<Event>) {
    forall i :: 0 <= i < |events| ==> events[i].Stopped?
  }

  lemma EventPidsAppend(events: seq<Event>, e: Event)
    ensures EventPids(events + [e]) == EventPids(events) + {e.pid}
  {
    assert (events + [e])[|events|] == e;
    assert forall d :: d in events ==> d in events + [e];
  }

  /** The events lead from the known processes to these, legally. */
  predicate Lead(known: Known, events: seq<Event>, to: Known) {
    Legal(known, events) && Replayed(known, events) == to
  }

  lemma LeadAppend(known: Known, a: seq<Event>, to: Known, e: Event)
    requires Lead(known, a, to) && Follows(to, e)
    ensures Lead(known, a + [e], if e.Started? then to[e.pid := e.name] else to - {e.pid})
  {
    LegalAppend(known, a, e);
  }

  lemma LeadConcat(known: Known, a: seq<Event>, mid: Known, b: seq<Event>, to: Known)
    requires Lead(known, a, mid) && Lead(mid, b, to)
    ensures Lead(known, a + b, to)
  {
    LegalConcat(known, a, b);
    ReplayConcat(known, a, b);
  }

  /** The pids not in todo have been looked at: those not current are gone from known, with an event each. */
  ghost predicate StopsSoFar(before: Known, known: Known, gone: seq<Event>, current: set<nat>, todo: set<nat>) {
    && todo <= known.Keys
    && (forall p :: p in known.Keys <==> p in before && (p in current || p in todo))
    && Lead(before, gone, known)
    && AllStops(gone)
    && (forall p :: p in EventPids(gone) <==> p in before && p !in current && p !in todo)
  }

  lemma StopsOneMore(before: Known, known: Known, gone: seq<Event>, current: set<nat>, todo: set<nat>, pid: nat)
    requires StopsSoFar(before, known, gone, current, todo) && pid in todo
    ensures if pid in current then StopsSoFar(before, known, gone, current, todo - {pid})
            else StopsSoFar(before, known - {pid}, gone + [Stopped(pid, known[pid])], current, todo - {pid})
  {
    if pid !in current {
      var e := Stopped(pid, known[pid]);
      LeadAppend(before, gone, known, e);
      EventPidsAppend(gone, e);
    }
  }

  class Observer {
    var known: Known
    /** Everything sent so far. */
    var sent: seq<Event>
    ghost var seed: Known

    /** The events sent so far, replayed on the seed, are legal and give the known processes. */
    ghost predicate Valid()
      reads this
    {
      Lead(seed, sent, known)
    }

    constructor ()
      ensures Valid() && known == map[] && sent == []
    {
      known, sent, seed := map[], [], map[];
    }

    /** The first listing is taken as the baseline, silently; a failed one leaves it empty. */
    method Seed(listing: Option<seq<Process>>)
      requires Valid() && known == map[] && sent == []
      modifies this
      ensures Valid() && sent == []
      ensures known.Keys == if listing.Some? then Pids(listing.value) else {}
    {
      if listing.Some? {
        var procs := listing.value;
        for i := 0 to |procs|
          invariant known.Keys == Pids(procs[..i]) && sent == []
        {
          known := known[procs[i].pid := procs[i].name];
          PidsAppend(procs, i);
        }
        assert procs[..|procs|] == procs;
      }
      seed := known;
    }

    method FindStarted(procs: seq<Process>) returns (current: set<nat>, started: seq<Event>)
      modifies `known
      ensures current == Pids(procs) && known.Keys == old(known.Keys) + current
      ensures Lead(old(known), started, known)
      ensures AllStarts(started) && EventPids(started) == current - old(known.Keys)
    {
      current, started := {}, [];
      for i := 0 to |procs|
        invariant current == Pids(procs[..i])
        invariant forall p :: p in known.Keys <==> p in old(known) || p in current
        invariant Lead(old(known), started, known)
        invariant AllStarts(started)
        invariant forall p :: p in EventPids(started) <==> p in current && p !in old(known)
      {
        var p := procs[i];
        PidsAppend(procs, i);
        current := current + {p.pid};
        if p.pid !in known {
          var e := Started(p.pid, p.name);
          LeadAppend(old(known), started, known, e);
          EventPidsAppend(started, e);
          known := known[p.pid := p.name];
          started := started + [e];
        }
      }
      assert procs[..|procs|] == procs;
    }

    method FindStopped(current: set<nat>) returns (gone: seq<Event>)
      modifies `known
      ensures known.Keys == old(known.Keys) * current
      ensures Lead(old(known), gone, known)
      ensures AllStops(gone) && EventPids(gone) == old(known.Keys) - current
    {
      gone := [];
      var todo := known.Keys;
      while todo != {}
        invariant StopsSoFar(old(known), known, gone, current, todo)
      {
        var pid :| pid in todo;
        StopsOneMore(old(known), known, gone, current, todo, pid);
        todo := todo - {pid};
        if pid !in current {
          gone := gone + [Stopped(pid, known[pid])];
          known := known - {pid};
        }
      }
    }

    /**
     * One poll: afterwards the listener knows exactly the processes listed. It sends the starts,
     * one for each new process, then the stops, one for each that is gone.
     */
    method Poll(listing: Option<seq<Process>>) returns (ghost started: seq<Event>, ghost gone: seq<Event>)
      requires Valid()
      modifies `known, `sent
      ensures Valid() && sent == old(sent) + (started + gone)
      ensures known.Keys == if listing.Some? then Pids(listing.value) else old(known.Keys)
      ensures AllStarts(started) && EventPids(started) == known.Keys - old(known.Keys)
      ensures AllStops(gone) && EventPids(gone) == old(known.Keys) - known.Keys
    {
      started, gone := [], [];
      if listing.None? {
        assert sent == sent + ([] + []);
        return;
      }
      ghost var before := known;
      var current, starts := FindStarted(listing.value);
      ghost var between := known;
      var stops := FindStopped(current);
      started, gone := starts, stops;
      LeadConcat(before, starts, between, stops, known);
      LeadConcat(seed, sent, before, starts + stops, known);
      sent := sent + (starts + stops);
      assert known.Keys == current;
    }
  }

  // ---- Whole runs ----

  /** No event of this pid in [i, j). */
  predicate Quiet(events: seq<Event>, i: nat, j: nat, pid: nat)
    requires i <= j <= |events|
  {
    forall k :: i <= k < j ==> events[k].pid != pid
  }

  lemma {:induction false} QuietKeeps(known: Known, events: seq<Event>, i: nat, j: nat, pid: nat)
    requires i <= j <= |events| && Quiet(events, i, j, pid)
    ensures pid in Replayed(known, events[..i]) <==> pid in Replayed(known, events[..j])
    ensures pid in Replayed(known, events[..i]) ==> Replayed(known, events[..i])[pid] == Replayed(known, events[..j])[pid]
  {
    if i < j {
      QuietKeeps(known, events, i, j - 1, pid);
      assert events[..j][..j - 1] == events[..j - 1];
    }
  }

  /**
   * Of two successive events of a pid one is a start and the other a stop, and a stop carries the
   * name of the start it ends.
   */
  lemma StartsAndStopsAlternate(known: Known, events: seq<Event>, i: nat, j: nat)
    requires Legal(known, events) && i < j < |events|
    requires events[i].pid == events[j].pid && Quiet(events, i + 1, j, events[i].pid)
    ensures events[i].Started? != events[j].Started?
    ensures events[j].Stopped? ==> events[j].name == events[i].name
  {
    QuietKeeps(known, events, i + 1, j, events[i].pid);
    assert events[..i + 1][..i] == events[..i];
    assert Follows(Replayed(known, events[..i]), events[i]);
    assert Follows(Replayed(known, events[..j]), events[j]);
  }

  /** The first event of a pid is a stop, with its seeded name, exactly if it was running at the seed. */
  lemma FirstEvent(known: Known, events: seq<Event>, j: nat)
    requires Legal(known, events) && j < |events| && Quiet(events, 0, j, events[j].pid)
    ensures events[j].Stopped? <==> events[j].pid in known
    ensures events[j].Stopped? ==> events[j].name == known[events[j].pid]
  {
    QuietKeeps(known, events, 0, j, events[j].pid);
    assert events[..0] == [];
    assert Follows(Replayed(known, events[..j]), events[j]);
  }
}
