/**
 The streams of the send queue: a slot table with a free list, doubled on
 demand, and the probe index that finds a stream's slot.  `streams` is the
 table's meaning; `Valid` ties it to the slots, the free list and the index.
 */
module StreamTables {
  import opened ProbeTable
  import opened SendQueueModel
  import opened SlotTable
  import opened Ranking

  class StreamTable {
    const hash: Sid -> nat
    var slots: seq<Slot>
    var freeHead: nat
    var index: array<Entry>
    ghost var where: map<Sid, nat>
    ghost var free: seq<nat>
    ghost var streams: map<Sid, Stream>

    ghost predicate Valid()
      reads this, index
    {
      && TableOk(slots, freeHead, where, free)
      && Means(slots, where, streams)
      && index.Length == 2 * |slots|
      && (|slots| > 0 ==> Represents(index[..], hash, where))
    }

    /** `slot` is the place of stream `sid`. */
    ghost predicate At(slot: int, sid: Sid)
      reads this
    {
      sid in where && where[sid] == slot && sid in streams
    }

    /** A slot can be taken without growing. */
    predicate HasRoom()
      reads this
    {
      freeHead < |slots|
    }

    constructor (hash: Sid -> nat)
      ensures Valid() && fresh(index) && streams == map[] && this.hash == hash
    {
      this.hash := hash;
      slots, freeHead := [], 0;
      where, free, streams := map[], [], map[];
      index := new Entry[0];
    }

    /** The slot that holds `sid`, or -1. */
    method Find(sid: Sid) returns (slot: int)
      requires Valid()
      ensures slot < 0 <==> sid !in streams
      ensures slot >= 0 ==> At(slot, sid)
    {
      if |slots| == 0 {
        return -1;
      }
      LoadBound(slots, freeHead, where, free);
      slot := ProbeTable.Find(index, hash, sid, where);
    }

    method Get(slot: int, ghost sid: Sid) returns (st: Stream)
      requires Valid() && At(slot, sid)
      ensures st == streams[sid]
    {
      st := slots[slot].st;
    }

    /** Replace the record of one stream. */
    method Put(slot: int, ghost sid: Sid, st: Stream)
      requires Valid() && At(slot, sid)
      modifies this`slots, this`streams
      ensures Valid() && At(slot, sid)
      ensures streams == old(streams)[sid := st] && |slots| == old(|slots|)
    {
      SetStream(slots, freeHead, where, free, streams, sid, st);
      slots := slots[slot := slots[slot].(st := st)];
      streams := streams[sid := st];
    }

    /** Rebuild the index of the first `n` slots in a fresh array. */
    method Reindex(size: nat) returns (ni: array<Entry>)
      requires Valid() && size > 2 * |slots|
      ensures fresh(ni) && ni.Length == size && Represents(ni[..], hash, where)
    {
      ni := new Entry[size](_ => Entry(0, -1));
      ghost var m: map<Sid, nat> := map[];
      for i := 0 to |slots|
        invariant Represents(ni[..], hash, m) && FirstSlots(where, m, i)
      {
        NextSlot(slots, where, m, i);
        if slots[i].inUse {
          ProbeTable.Insert(ni, hash, slots[i].sid, i, m);
          m := m[slots[i].sid := i];
        }
      }
      AllSlots(slots, where, m);
    }

    /** More slots, all of them free, and an index twice their number; needed once every slot is taken. */
    method Grow()
      requires Valid() && !HasRoom()
      modifies this`slots, this`freeHead, this`index, this`free
      ensures Valid() && fresh(index) && HasRoom()
      ensures |slots| == if old(|slots|) == 0 then 8 else 2 * old(|slots|)
    {
      var n := |slots|;
      var nn := if n == 0 then 8 else 2 * n;
      NoneFree(slots, freeHead, free);
      GrowTable(slots, freeHead, where, streams, nn - n);
      var ni := Reindex(2 * nn);
      index := ni;
      slots := slots + NewSlots(n, nn - n);
      freeHead := n;
      free := seq(nn - n, k => n + k);
    }

    /** Take a free slot for a new stream. */
    method Take(sid: Sid) returns (slot: int)
      requires Valid() && HasRoom() && sid !in streams
      modifies this`slots, this`freeHead, this`free, this`where, this`streams, index
      ensures Valid() && At(slot, sid) && slot >= 0 && streams == old(streams)[sid := FRESH]
    {
      TakeSlot(slots, freeHead, where, free, streams, sid);
      LoadBound(slots, freeHead, where, free);
      slot := freeHead;
      ProbeTable.Insert(index, hash, sid, freeHead, where);
      where, free, streams := where[sid := freeHead], free[1..], streams[sid := FRESH];
      freeHead, slots := slots[freeHead].nextFree, slots[freeHead := Slot(true, sid, FRESH, 0)];
    }

    /** The slot of `sid`, created if absent; -1 if the table had to grow and could not. */
    method FindOrCreate(sid: Sid, memory: bool) returns (slot: int, created: bool)
      requires Valid()
      modifies this, index
      ensures Valid() && (index == old(index) || fresh(index))
      ensures slot < 0 <==> sid !in old(streams) && !memory && !old(HasRoom())
      ensures created <==> slot >= 0 && sid !in old(streams)
      ensures slot >= 0 ==> At(slot, sid)
      ensures streams == if created then old(streams)[sid := FRESH] else old(streams)
    {
      slot := Find(sid);
      if slot >= 0 {
        return slot, false;
      }
      if freeHead >= |slots| {
        if !memory {
          return -1, false;
        }
        Grow();
      }
      slot := Take(sid);
      created := true;
    }

    /** Take the stream out of the index and put its slot on the free list. */
    method Release(slot: int, sid: Sid)
      requires Valid() && At(slot, sid)
      modifies this`slots, this`freeHead, this`free, this`where, this`streams, index
      ensures Valid() && streams == old(streams) - {sid}
    {
      LoadBound(slots, freeHead, where, free);
      ReleaseSlot(slots, freeHead, where, free, streams, sid);
      ProbeTable.Remove(index, hash, sid, where);
      slots := slots[slot := Slot(false, 0, FRESH, freeHead)];
      freeHead, where, free, streams := slot, where - {sid}, [slot] + free, streams - {sid};
    }

    /** Rank the streams; on failure those ranked so far keep their new level. */
    method Rank(apply: (Sid, nat) -> bool, sort: seq<Rank> -> seq<Rank>) returns (ok: bool, calls: seq<Call>)
      requires Valid() && Sorts(sort)
      modifies this`slots, this`streams
      ensures Valid()
      ensures streams.Keys == old(streams).Keys
      ensures forall s :: s in streams ==> streams[s] == old(streams)[s]
                                           || streams[s] == Levelled(RankedKeys(old(streams)), old(streams)[s])
      ensures ok ==> forall s :: s in streams ==> streams[s] == Levelled(RankedKeys(old(streams)), old(streams)[s])
      ensures forall c :: c in calls ==> Deserved(old(streams), c)
    {
      var slots';
      ok, slots', calls := RankSlots(slots, apply, sort);
      SlotKeysAgree(slots, where, streams);
      CallsDeserved(slots, where, streams, calls);
      RankedTable(slots, freeHead, where, free, slots');
      slots := slots';
      streams := map s | s in where :: slots[where[s]].st;
    }
  }
}
