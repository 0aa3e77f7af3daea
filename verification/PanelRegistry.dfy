/**
 * The panel registry of sidecar/panels.go: one map from panel id to the handle of the panel
 * that owns it. The lifecycle protocol (PanelLifecycle) changes the map only through the
 * functions that specify these methods.
 */
module PanelRegistry {
  import opened Options

  type Id = string

  // The identity of a *panelImpl: its position in the order of creation.
  type Handle = nat

  type Entries = map<Id, Handle>

  /** deleteIf: drop id's entry only while it still belongs to h. */
  function DeleteIf(entries: Entries, id: Id, h: Handle): Entries {
    if id in entries && entries[id] == h then entries - {id} else entries
  }

  class Registry {
    var entries: Entries

    constructor ()
      ensures entries == map[]
    {
      entries := map[];
    }

    method Put(id: Id, h: Handle)
      modifies this
      ensures entries == old(entries)[id := h]
    {
      entries := entries[id := h];
    }

    method Get(id: Id) returns (e: Option<Handle>)
      ensures e == if id in entries then Some(entries[id]) else None
    {
      if id in entries {
        return Some(entries[id]);
      }
      return None;
    }

    method Delete(id: Id)
      modifies this
      ensures entries == old(entries) - {id}
    {
      entries := entries - {id};
    }

    /** A panel that tears down late leaves the entry of a newer panel alone. */
    method RemoveIf(id: Id, h: Handle)
      modifies this
      ensures entries == DeleteIf(old(entries), id, h)
      ensures id in entries <==> id in old(entries) && old(entries)[id] != h
      ensures forall other :: other in old(entries) && (other != id || old(entries)[other] != h) ==>
                other in entries && entries[other] == old(entries)[other]
    {
      var e := Get(id);
      if e.Some? && e.value == h {
        Delete(id);
      }
    }

    /** Every registered id once, in no particular order. */
    method Ids() returns (out: seq<Id>)
      ensures multiset(out) == multiset(entries.Keys)
    {
      out := [];
      var rest := entries.Keys;
      while rest != {}
        invariant rest <= entries.Keys
        invariant multiset(out) + multiset(rest) == multiset(entries.Keys)
        decreases rest
      {
        var id :| id in rest;
        out := out + [id];
        rest := rest - {id};
      }
    }
  }
}
