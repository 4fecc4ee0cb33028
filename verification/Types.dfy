/** Shared vocabulary: bytes, options and the buffer sizes of common_def.h. */
module Types {
  newtype byte = b: int | 0 <= b < 0x100

  type Bytes = seq<byte>

  datatype Option<+T> = None | Some(value: T)

  const COMMANDSIZE := 1461
  const FILEBUFSIZE := 1048576
  const FILEBUFWRITESIZE := 1047116
  const DATASIZE := 1460
  const INDEXSIZE := 10240
  const FILEINFOLEN := 320
  const PAGE_LINES := 32
  const PORT_PART_LEN := 4
  const PASV_RET_IPLEN := 17
  const IPLEN := 16
  const USERLEN := 16
  const PASSLEN := 128

  function Concat(chunks: seq<Bytes>): Bytes {
    if chunks == [] then [] else chunks[0] + Concat(chunks[1..])
  }

  lemma Assoc<T>(a: seq<T>, b: seq<T>, c: seq<T>)
    ensures a + (b + c) == a + b + c
  {
  }

  lemma HeadTail<T>(a: seq<T>, b: seq<T>)
    requires a != []
    ensures (a + b)[0] == a[0] && (a + b)[1..] == a[1..] + b
  {
  }

  lemma {:induction false} ConcatAppend(a: seq<Bytes>, b: seq<Bytes>)
    ensures Concat(a + b) == Concat(a) + Concat(b)
  {
    if a == [] {
      assert a + b == b;
    } else {
      ConcatAppend(a[1..], b);
      HeadTail(a, b);
      Assoc(a[0], Concat(a[1..]), Concat(b));
    }
  }
}
