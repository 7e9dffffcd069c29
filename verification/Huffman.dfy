/**
 * What both ends of a connection fix in advance: the static table, and the Huffman code of RFC 7541 as an
 * abstract streaming codec.  A Huffman decoding context is the history of the bytes it was fed: `failed` is its
 * failure state and `decode` the outcome once the final byte is in.
 */
module Huffman {
  import opened Bytes
  import opened HeaderTable

  datatype Codec = Codec(st: Statics, encode: Bytes -> Bytes, decode: Bytes -> Option<Bytes>, failed: Bytes -> bool)

  /** The round-trip law, and that the failure state is absorbing and never followed by success. */
  ghost predicate Lawful(c: Codec) {
    && (forall s :: c.decode(c.encode(s)) == Some(s))
    && (forall p, q :: c.failed(p) && p <= q ==> c.failed(q))
    && (forall p :: c.failed(p) ==> c.decode(p) == None)
  }

  /** The laws are satisfiable: the code that changes nothing obeys them. */
  function Identity(st: Statics): (c: Codec)
    ensures Lawful(c)
  {
    Codec(st, s => s, s => Some(s), s => false)
  }
}
