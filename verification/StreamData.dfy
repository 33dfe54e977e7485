/** The chunks that queues carry between the threads of a transfer. */
module StreamData {
  import opened Bytes

  datatype Chunk = Chunk(data: seq<byte>, last: bool)

  function QueuedBytes(q: seq<Chunk>): seq<byte> {
    if q == [] then [] else q[0].data + QueuedBytes(q[1..])
  }

  lemma {:induction false} QueuedBytesAppend(q: seq<Chunk>, chunk: Chunk)
    ensures QueuedBytes(q + [chunk]) == QueuedBytes(q) + chunk.data
  {
    if q == [] {
      assert q + [chunk] == [chunk];
    } else {
      assert (q + [chunk])[1..] == q[1..] + [chunk];
      QueuedBytesAppend(q[1..], chunk);
    }
  }
}
