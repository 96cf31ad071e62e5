/** What travels on a stream: bytes and the end mark. */
module StreamItems {

  type Byte = bv8

  datatype Item = Octet(byte: Byte) | Fin

  function Octets(data: seq<Byte>): seq<Item> { seq(|data|, i requires 0 <= i < |data| => Octet(data[i])) }

  function EndMark(fin: bool): seq<Item> { if fin then [Fin] else [] }

  /** Apart from a final end mark there are only bytes. */
  ghost predicate EndsOnce(items: seq<Item>) { forall i :: 0 <= i < |items| - 1 ==> items[i].Octet? }

  lemma OctetsConcat(a: seq<Byte>, b: seq<Byte>)
    ensures Octets(a + b) == Octets(a) + Octets(b)
  {
  }
}
