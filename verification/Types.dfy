/** Values shared by the assembler's components. */
module Types {

  newtype byte = x: int | 0 <= x < 256

  datatype Option<+T> = None | Some(value: T)
  {
    function GetOr(default: T): T {
      if Some? then value else default
    }
  }

  // Job IDs are strings in the program and are only ever compared for equality.
  type JobId = nat

  datatype FileKey = FileKey(jobID: JobId, fileIdx: int)

  /** A payload slice: nil, or a pooled buffer on loan under a loan number. */
  datatype Data = Nil | Buf(id: nat, bytes: seq<byte>)
  {
    function Bytes(): seq<byte> {
      if Nil? then [] else bytes
    }

    function Len(): nat {
      |Bytes()|
    }

    /** The loan this payload has to pay back to the decoder's pool. */
    function Loan(): multiset<nat> {
      if Nil? then multiset{} else multiset{id}
    }
  }

  /** One article with its bytes, as the write cache holds it. */
  datatype BufferedArticle = BufferedArticle(offset: int, data: Data, id: int, crc32: int)
  {
    function End(): int {
      offset + data.Len()
    }
  }

  /** One article's claim to have reached WriteAt, as the barrier receives it. */
  datatype WrittenArticle = WrittenArticle(artIdx: int, offset: int, length: nat, crc32: int)

  /** The content of a file; an offset never written is absent. */
  type Content = map<int, byte>

  /** The content that writing p at off lays down. */
  function Patch(off: int, p: seq<byte>): (r: Content)
    ensures forall k :: k in r <==> off <= k < off + |p|
    ensures forall k | k in r :: r[k] == p[k - off]
    decreases |p|
  {
    if p == [] then map[] else Patch(off + 1, p[1..])[off := p[0]]
  }

  /** What one WriteAt does: everything, or any part of it (possibly garbage) and an error. */
  datatype WriteOutcome = Wrote | Failed(torn: Content)

  /** A range of a file. */
  datatype Extent = Extent(offset: int, length: nat)

  /** A file behind its handle: its content, the outcome of each WriteAt to come, and the ranges written so far. */
  datatype Disk = Disk(bytes: Content, env: nat -> WriteOutcome, log: seq<Extent>)

  /** A failing write may leave anything inside its own range and nothing outside it. */
  function Torn(torn: Content, off: int, n: nat): Content {
    map k | k in torn && off <= k < off + n :: torn[k]
  }

  function WriteAt(d: Disk, p: seq<byte>, off: int): (Disk, bool) {
    match d.env(|d.log|)
    case Wrote => (Disk(d.bytes + Patch(off, p), d.env, d.log + [Extent(off, |p|)]), true)
    case Failed(torn) => (Disk(d.bytes + Torn(torn, off, |p|), d.env, d.log + [Extent(off, |p|)]), false)
  }
}
