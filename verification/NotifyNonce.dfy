/**
 * Single-use nonces of sidecar/notify_nonce.go. Times are milliseconds of one monotone clock; a
 * mint is given the random nonce it drew, or none when entropy failed.
 */
module NotifyNonce {
  import opened Options

  const TTL: nat := 600000

  datatype Entry = Entry(nonce: string, expires: nat)

  type Table = map<string, Entry>

  /** now.After(expires) */
  predicate Expired(e: Entry, now: nat) {
    now > e.expires
  }

  function Pruned(t: Table, now: nat): Table {
    map id | id in t && !Expired(t[id], now) :: t[id]
  }

  predicate Accepts(t: Table, id: string, nonce: string, now: nat) {
    id != "" && nonce != "" && id in t && !Expired(t[id], now) && t[id].nonce == nonce
  }

  class Nonces {
    var entries: Table

    constructor ()
      ensures entries == map[]
    {
      entries := map[];
    }

    method Mint(id: string, drawn: Option<string>, now: nat) returns (n: string)
      modifies this
      ensures n == if drawn.Some? then drawn.value else ""
      ensures entries == Next(old(entries), Event.Mint(id, drawn, now), true)
    {
      if drawn.None? {
        return "";
      }
      n := drawn.value;
      var todo := entries.Keys;
      while todo != {}
        invariant todo <= entries.Keys <= old(entries).Keys
        invariant forall k :: k in entries ==> entries[k] == old(entries)[k]
        invariant forall k :: k in old(entries) ==> (k in entries <==> k in todo || !Expired(old(entries)[k], now))
      {
        var k :| k in todo;
        todo := todo - {k};
        if Expired(entries[k], now) {
          entries := entries - {k};
        }
      }
      assert entries == Pruned(old(entries), now);
      entries := entries[id := Entry(n, now + TTL)];
    }

    method Consume(id: string, nonce: string, now: nat) returns (ok: bool)
      modifies this
      ensures ok <==> Accepts(old(entries), id, nonce, now)
      ensures entries == Next(old(entries), Event.Consume(id, nonce, now), true)
    {
      if id == "" || nonce == "" {
        return false;
      }
      if id !in entries {
        return false;
      }
      var e := entries[id];
      if Expired(e, now) || e.nonce != nonce {
        return false;
      }
      entries := entries - {id};
      ok := true;
    }
  }

  // ---- Runs ----

  datatype Event =
    | Mint(id: string, drawn: Option<string>, at: nat)
    | Consume(id: string, nonce: string, at: nat)

  predicate Monotone(events: seq<Event>) {
    forall i, j :: 0 <= i < j < |events| ==> events[i].at <= events[j].at
  }

  /** The table after one event; prune says whether a mint drops the expired entries. */
  function Next(t: Table, e: Event, prune: bool): Table {
    match e
    case Mint(id, None, _) => t
    case Mint(id, Some(n), at) => (if prune then Pruned(t, at) else t)[id := Entry(n, at + TTL)]
    case Consume(id, nonce, at) => if Accepts(t, id, nonce, at) then t - {id} else t
  }

  function After(events: seq<Event>, k: nat, prune: bool): Table
    requires k <= |events|
  {
    if k == 0 then map[] else Next(After(events, k - 1, prune), events[k - 1], prune)
  }

  /** Event k is a consume that succeeds. */
  predicate Succeeds(events: seq<Event>, k: nat, prune: bool)
    requires k < |events|
  {
    events[k].Consume? && Accepts(After(events, k, prune), events[k].id, events[k].nonce, events[k].at)
  }

  // ---- Pruning is not observable ----

  /** p is u without some entries that have expired. */
  predicate LacksOnlyExpired(p: Table, u: Table, now: nat) {
    && (forall id :: id in p ==> id in u && p[id] == u[id])
    && (forall id :: id in u && !Expired(u[id], now) ==> id in p)
  }

  lemma NextLacksOnlyExpired(p: Table, u: Table, e: Event, now: nat)
    requires LacksOnlyExpired(p, u, e.at) && e.at <= now
    ensures LacksOnlyExpired(Next(p, e, true), Next(u, e, false), now)
  {
    assert e.Consume? ==> (Accepts(p, e.id, e.nonce, e.at) <==> Accepts(u, e.id, e.nonce, e.at));
  }

  /** The pruned table lacks only entries that have expired. */
  lemma {:induction false} PruningDropsOnlyExpired(events: seq<Event>, k: nat, now: nat)
    requires Monotone(events) && k <= |events| && (k > 0 ==> events[k - 1].at <= now)
    ensures LacksOnlyExpired(After(events, k, true), After(events, k, false), now)
  {
    if k > 0 {
      PruningDropsOnlyExpired(events, k - 1, events[k - 1].at);
      NextLacksOnlyExpired(After(events, k - 1, true), After(events, k - 1, false), events[k - 1], now);
    }
  }

  /** A pruned table answers every consume as an unpruned one would. */
  lemma PruningChangesNoAnswer(events: seq<Event>, k: nat)
    requires Monotone(events) && k < |events|
    ensures Succeeds(events, k, true) <==> Succeeds(events, k, false)
  {
    PruningDropsOnlyExpired(events, k, events[k].at);
  }

  // ---- Exactly when a consume succeeds ----

  predicate Mints(e: Event, id: string) {
    e.Mint? && e.id == id && e.drawn.Some?
  }

  /** Mint m is the newest for its id among the first k events, and its nonce has not been used since. */
  ghost predicate Live(events: seq<Event>, k: nat, m: nat, id: string)
    requires k <= |events|
  {
    && m < k && Mints(events[m], id)
    && forall i :: m < i < k ==> !Mints(events[i], id) && !(events[i].id == id && Succeeds(events, i, false))
  }

  lemma {:induction false} EntryIsLiveMint(events: seq<Event>, k: nat, id: string)
    requires k <= |events|
    ensures forall m: nat :: Live(events, k, m, id) ==>
              id in After(events, k, false) && After(events, k, false)[id] == Entry(events[m].drawn.value, events[m].at + TTL)
    ensures id in After(events, k, false) ==> exists m: nat :: Live(events, k, m, id)
  {
    if k > 0 {
      EntryIsLiveMint(events, k - 1, id);
      var e := events[k - 1];
      if Mints(e, id) {
        assert Live(events, k, k - 1, id);
      } else {
        forall m: nat | m < k - 1 ensures Live(events, k, m, id) <==>
                                     Live(events, k - 1, m, id) && !(e.id == id && Succeeds(events, k - 1, false))
        {
        }
        if id in After(events, k, false) {
          var m: nat :| Live(events, k - 1, m, id);
          assert Live(events, k, m, id);
        }
      }
    }
  }

  /**
   * A consume succeeds exactly if it shows the nonce of the newest mint for its id, that mint has
   * not expired, and no consume for the id has succeeded since.
   */
  lemma ConsumeExactly(events: seq<Event>, k: nat)
    requires Monotone(events) && k < |events| && events[k].Consume?
    ensures Succeeds(events, k, true) <==>
            && events[k].id != "" && events[k].nonce != ""
            && exists m: nat :: Live(events, k, m, events[k].id) && events[m].drawn.value == events[k].nonce
                           && events[k].at <= events[m].at + TTL
  {
    PruningChangesNoAnswer(events, k);
    EntryIsLiveMint(events, k, events[k].id);
  }

  // ---- Single use ----

  function MintCount(events: seq<Event>, k: nat, id: string): nat
    requires k <= |events|
  {
    if k == 0 then 0 else MintCount(events, k - 1, id) + if Mints(events[k - 1], id) then 1 else 0
  }

  function SuccessCount(events: seq<Event>, k: nat, id: string): nat
    requires k <= |events|
  {
    if k == 0 then 0
    else SuccessCount(events, k - 1, id) + if Succeeds(events, k - 1, true) && events[k - 1].id == id then 1 else 0
  }

  /** Consumes that succeed for an id never outnumber its mints, and an unused nonce is one they lag behind by. */
  lemma {:induction false} UsesNeverExceedMints(events: seq<Event>, k: nat, id: string)
    requires k <= |events|
    ensures SuccessCount(events, k, id) + (if id in After(events, k, true) then 1 else 0) <= MintCount(events, k, id)
  {
    if k > 0 {
      UsesNeverExceedMints(events, k - 1, id);
    }
  }

  /** A replay of a consume that succeeded fails, unless the same nonce is minted for the id again in between. */
  lemma ReplayFails(events: seq<Event>, i: nat, j: nat)
    requires Monotone(events) && i < j < |events| && Succeeds(events, i, true) && events[j].Consume?
    requires events[j].id == events[i].id
    requires forall m :: i < m < j ==> !(Mints(events[m], events[i].id) && events[m].drawn.value == events[j].nonce)
    ensures !Succeeds(events, j, true)
  {
    PruningChangesNoAnswer(events, i);
    ConsumeExactly(events, j);
    if m: nat :| Live(events, j, m, events[j].id) && events[m].drawn.value == events[j].nonce {
      if m < i {
        assert Succeeds(events, i, false);
      }
      assert m != i;
    }
  }
}
