/**
 The list of stream records of a connection: a new record goes to the front,
 lookup and removal scan from it.  A list stands for the map from ids to records.
 */
module RecordList {

  type Sid = nat

  datatype Node<T> = Node(id: Sid, rec: T)

  ghost predicate Has<T>(list: seq<Node<T>>, sid: Sid) { exists i :: 0 <= i < |list| && list[i].id == sid }

  /** One record per id, and exactly those of the map. */
  ghost predicate Lists<T>(list: seq<Node<T>>, m: map<Sid, T>) {
    && (forall i :: 0 <= i < |list| ==> list[i].id in m && m[list[i].id] == list[i].rec)
    && (forall i, j :: 0 <= i < j < |list| ==> list[i].id != list[j].id)
    && (forall sid {:trigger Has(list, sid)} :: sid in m ==> Has(list, sid))
  }

  /** The place of the record, or -1. */
  method Find<T>(list: seq<Node<T>>, sid: Sid, ghost m: map<Sid, T>) returns (at: int)
    requires Lists(list, m)
    ensures at < |list| && (at < 0 <==> sid !in m)
    ensures at >= 0 ==> list[at].id == sid && m[sid] == list[at].rec
  {
    for i := 0 to |list|
      invariant forall j :: 0 <= j < i ==> list[j].id != sid
    {
      if list[i].id == sid {
        return i;
      }
    }
    assert sid in m ==> Has(list, sid);
    return -1;
  }

  lemma SetRecord<T>(list: seq<Node<T>>, m: map<Sid, T>, at: nat, r: T)
    requires Lists(list, m) && at < |list|
    ensures Lists(list[at := Node(list[at].id, r)], m[list[at].id := r])
  {
    var after := list[at := Node(list[at].id, r)];
    forall sid | sid in m[list[at].id := r]
      ensures Has(after, sid)
    {
      assert Has(list, sid);
      var i :| 0 <= i < |list| && list[i].id == sid;
      assert after[i].id == sid;
    }
  }

  lemma AddRecord<T>(list: seq<Node<T>>, m: map<Sid, T>, sid: Sid, r: T)
    requires Lists(list, m) && sid !in m
    ensures Lists([Node(sid, r)] + list, m[sid := r])
  {
    var after := [Node(sid, r)] + list;
    forall s | s in m[sid := r]
      ensures Has(after, s)
    {
      if s == sid {
        assert after[0].id == s;
      } else {
        assert Has(list, s);
        var i :| 0 <= i < |list| && list[i].id == s;
        assert after[i + 1].id == s;
      }
    }
  }

  /** The list without the record at `at`. */
  lemma DropRecord<T>(list: seq<Node<T>>, m: map<Sid, T>, at: nat)
    requires Lists(list, m) && at < |list|
    ensures Lists(list[..at] + list[at + 1..], m - {list[at].id})
  {
    var after := list[..at] + list[at + 1..];
    forall s | s in m - {list[at].id}
      ensures Has(after, s)
    {
      assert Has(list, s);
      var i :| 0 <= i < |list| && list[i].id == s;
      assert after[if i < at then i else i - 1].id == s;
    }
  }
}
