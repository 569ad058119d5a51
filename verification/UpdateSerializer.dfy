/**
  The server's delta log and its full dump as the objects that Source/Server.hpp has: the serializer owns the
  connection storage, is handed the collector's changes and logs them while logging is on.
*/
module UpdateSerializer {
  import opened Connections
  import opened Collection

  class ConnectionUpdateSerializer {
    var storage: Storage
    var log: seq<Doc>
    var isEnabled: bool

    function View(): Serializer
      reads this
    {
      Serializer(storage, log, isEnabled)
    }

    constructor ()
      ensures View() == Serializer(Storage(map[], {}, {}), [], true)
    {
      storage, log, isEnabled := Storage(map[], {}, {}), [], true;
    }

    method SetSerializationEnabled(enable: bool)
      modifies this`log, this`isEnabled
      ensures View() == SetEnabled(old(View()), enable)
    {
      if isEnabled && !enable { log := []; }
      isEnabled := enable;
    }

    /** The message's records; the log starts anew. */
    method Build() returns (docs: seq<Doc>)
      modifies this`log
      ensures docs == old(log) && View() == old(View()).(log := [])
    {
      docs := log;
      log := [];
    }

    /** With `add`, an address that is not known yet becomes known. */
    method GetAddress(a: Address, add: bool) returns (found: bool)
      modifies this`storage
      ensures found == (add || a in old(storage).addresses)
      ensures storage == if add then old(storage).(addresses := old(storage).addresses + {a}) else old(storage)
    {
      if add { storage := storage.(addresses := storage.addresses + {a}); }
      found := a in storage.addresses;
    }

    method GetPort(p: Port, add: bool) returns (found: bool)
      modifies this`storage
      ensures found == (add || p in old(storage).ports)
      ensures storage == if add then old(storage).(ports := old(storage).ports + {p}) else old(storage)
    {
      if add { storage := storage.(ports := storage.ports + {p}); }
      found := p in storage.ports;
    }

    method Add(c: Connection, d: ConnectionData)
      modifies this`storage, this`log
      ensures View() == AddConnection(old(View()), c, d)
    {
      var isNew := c !in storage.conns;
      if isNew { storage := storage.(conns := storage.conns[c := d]); }
      if isNew && isEnabled { log := log + [Serialize(c, storage.conns[c], Create, -1)]; }
    }

    /** The caller has already changed the stored data. */
    method Update(c: Connection, flags: int)
      requires c in storage.conns
      modifies this`log
      ensures log == if isEnabled then old(log) + [Serialize(c, storage.conns[c], Action.Update, flags)] else old(log)
    {
      if isEnabled { log := log + [Serialize(c, storage.conns[c], Action.Update, flags)]; }
    }

    method Remove(c: Connection)
      modifies this`storage, this`log
      ensures View() == RemoveConnection(old(View()), c)
    {
      if c in storage.conns {
        if isEnabled { log := log + [Serialize(c, storage.conns[c], Action.Remove, -1)]; }
        storage := storage.(conns := storage.conns - {c});
      }
    }

    method Clear()
      modifies this
      ensures View() == ClearConnections(old(View()))
    {
      storage := storage.(conns := map[]);
      SetSerializationEnabled(false);
    }
  }

  lemma DumpMore(t: Table, order: seq<Connection>, c: Connection)
    requires (forall i :: 0 <= i < |order| ==> order[i] in t) && c in t
    ensures DumpDocs(t, order + [c]) == DumpDocs(t, order) + [Serialize(c, t[c], Create, -1)]
  {
    assert (order + [c])[..|order|] == order;
  }

  /** ConnectionStorageSerializer: one CREATE record per connection, in whatever order the hash map has them. */
  method BuildDump(t: Table) returns (docs: seq<Doc>, ghost order: seq<Connection>)
    ensures IsOrder(t, order) && docs == DumpDocs(t, order)
  {
    docs, order := [], [];
    var rest := t.Keys;
    while rest != {}
      invariant rest <= t.Keys && (forall c :: c in t ==> c in rest || c in order)
      invariant forall i :: 0 <= i < |order| ==> order[i] in t && order[i] !in rest
      invariant forall i, j :: 0 <= i < j < |order| ==> order[i] != order[j]
      invariant docs == DumpDocs(t, order)
      decreases rest
    {
      var c :| c in rest;
      DumpMore(t, order, c);
      docs := docs + [Serialize(c, t[c], Create, -1)];
      order := order + [c];
      rest := rest - {c};
    }
  }
}
