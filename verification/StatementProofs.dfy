/** The statements a round sends amount to the steps its draft is built from. */
module StatementProofs {
  import opened Wrappers
  import opened RelayTables
  import opened RelayRound

  function DeleteStatements(slot: Slot, row: Row): seq<Statement> {
    [StageDeleted(slot, row), RemoveLive(slot, row.id)]
  }

  function StoreStatements(prior: Option<Row>, u: Upload, row: Row): seq<Statement> {
    (if prior.Some? then [KeepVersion(u.slot, prior.value)] else [])
    + [PutLive(u.slot, row), AddVersion(u.slot, row), DropPending(u.id)]
  }

  lemma ApplyTwo(t: Tables, batch: seq<Statement>, a: Statement, b: Statement)
    requires ApplyAll(t, batch).Some? && Apply(ApplyAll(t, batch).value, a).Some?
    ensures ApplyAll(t, batch + [a, b]) == Apply(Apply(ApplyAll(t, batch).value, a).value, b)
  {
    ApplyAppend(t, batch, a);
    ApplyAppend(t, batch + [a], b);
    assert batch + [a, b] == batch + [a] + [b];
  }

  lemma DeleteApplies(t: Tables, batch: seq<Statement>, slot: Slot)
    requires ApplyAll(t, batch).Some? && slot in ApplyAll(t, batch).value.live
    ensures var b := ApplyAll(t, batch).value;
            ApplyAll(t, batch + DeleteStatements(slot, b.live[slot])) == Some(Unlive(b, slot))
  {
    var b := ApplyAll(t, batch).value;
    ApplyTwo(t, batch, StageDeleted(slot, b.live[slot]), RemoveLive(slot, b.live[slot].id));
  }

  lemma StoreApplies(t: Tables, batch: seq<Statement>, u: Upload, key: Key, seqno: nat)
    requires ApplyAll(t, batch).Some? && u.id !in LiveIds(ApplyAll(t, batch).value.live)
    ensures var b := ApplyAll(t, batch).value;
            var prior := if u.slot in b.live then Some(b.live[u.slot]) else None;
            ApplyAll(t, batch + StoreStatements(prior, u, Row(seqno, u.id, key, |u.ciphertext|)))
              == Some(StoreTables(b, u, key, seqno))
  {
    var b := ApplyAll(t, batch).value;
    var row := Row(seqno, u.id, key, |u.ciphertext|);
    var kept := KeepPrior(b, u.slot);
    var start := batch;
    if u.slot in b.live {
      start := batch + [KeepVersion(u.slot, b.live[u.slot])];
      ApplyAppend(t, batch, KeepVersion(u.slot, b.live[u.slot]));
    }
    assert batch + StoreStatements(if u.slot in b.live then Some(b.live[u.slot]) else None, u, row)
        == start + [PutLive(u.slot, row), AddVersion(u.slot, row)] + [DropPending(u.id)];
    assert forall s :: s in b.live ==> b.live[s].id in LiveIds(b.live);
    PutApplies(t, start, kept, u, row);
  }

  /** The upload's own row, once the version it replaces is kept. */
  lemma PutApplies(t: Tables, batch: seq<Statement>, b: Tables, u: Upload, row: Row)
    requires ApplyAll(t, batch) == Some(b) && row.id == u.id && forall s :: s in b.live ==> b.live[s].id != u.id
    ensures ApplyAll(t, batch + [PutLive(u.slot, row), AddVersion(u.slot, row)] + [DropPending(u.id)])
        == Some(PutRow(b, u, row))
  {
    ApplyTwo(t, batch, PutLive(u.slot, row), AddVersion(u.slot, row));
    ApplyAppend(t, batch + [PutLive(u.slot, row), AddVersion(u.slot, row)], DropPending(u.id));
  }

  lemma ApplyOne(t: Tables, s: Statement)
    ensures ApplyAll(t, [s]) == Apply(t, s)
  {
    assert [] + [s] == [s];
    ApplyAppend(t, [], s);
  }

  lemma DropVersionsApplies(t: Tables, gone: set<nat>)
    ensures ApplyAll(t, [DropVersions(gone)]) == Some(t.(history := t.history - gone))
  {
    ApplyOne(t, DropVersions(gone));
  }

  function Reservations(us: seq<Upload>, keys: map<Id, Key>): seq<Statement>
    requires UploadIds(us) <= keys.Keys
  {
    if us == [] then []
    else
      assert us[|us| - 1].id in UploadIds(us);
      Reservations(us[..|us| - 1], keys) + [Reserve(us[|us| - 1].id, keys[us[|us| - 1].id])]
  }

  lemma {:induction false} ReservationsApply(t: Tables, us: seq<Upload>, keys: map<Id, Key>)
    requires UploadIds(us) <= keys.Keys
    ensures ApplyAll(t, Reservations(us, keys)) == Some(Reserved(t, us, keys))
  {
    if us == [] {
      assert Reserved(t, us, keys) == t;
    } else {
      var n := |us| - 1;
      var u := us[n];
      assert us == us[..n] + [u];
      assert u.id in UploadIds(us);
      ReservationsApply(t, us[..n], keys);
      ApplyAppend(t, Reservations(us[..n], keys), Reserve(u.id, keys[u.id]));
      ReservedAppend(t, us[..n], u, keys);
    }
  }

  lemma ReservedAppend(t: Tables, us: seq<Upload>, u: Upload, keys: map<Id, Key>)
    requires UploadIds(us + [u]) <= keys.Keys && UploadIds(us) <= keys.Keys && u.id in keys
    ensures Apply(Reserved(t, us, keys), Reserve(u.id, keys[u.id])) == Some(Reserved(t, us + [u], keys))
  {
    assert UploadIds(us + [u]) == UploadIds(us) + {u.id};
    KeysAppend(t.pending, UploadIds(us), u.id, keys);
  }

  lemma KeysAppend(pending: map<Id, Key>, ids: set<Id>, id: Id, keys: map<Id, Key>)
    requires ids <= keys.Keys && id in keys
    ensures (pending + (map i | i in ids :: keys[i]))[id := keys[id]] == pending + (map i | i in ids + {id} :: keys[i])
  {
  }

  lemma StillFresh(d: Disk, us: seq<Upload>, keys: map<Id, Key>)
    requires FreshKeys(d, us, keys)
    ensures FreshKeys(Disk(d.t, d.bucket - Superseded(d.t, us)), us, keys)
    ensures (d.bucket - Superseded(d.t, us)).Keys !! Superseded(d.t, us)
  {
  }
}
