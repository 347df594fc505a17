/** The key-value store of one server, as the protocol sees it: the atomic meaning of
    `KV_store::put` and `KV_store::get` (src/memtables/memtable.cpp). */
module Store {
  import opened Basics
  import opened Lamports

  type Key = Bytes

  datatype Entry = Entry(clock: Lamport, value: Bytes)

  type Table = map<Key, Entry>

  /** `put`: a missing key is inserted, an older entry is replaced, anything else stays. */
  function PutNewer(t: Table, k: Key, e: Entry): Table {
    if k !in t || Less(t[k].clock, e.clock) then t[k := e] else t
  }

  /** `get`: a missing key reads as the minimal clock and an empty value. */
  function Lookup(t: Table, k: Key): Entry {
    if k in t then t[k] else Entry(MIN, [])
  }

  function ClockOf(t: Table, k: Key): Lamport {
    Lookup(t, k).clock
  }

  /** A put never lowers a clock, leaves the other keys alone and afterwards the key's clock
      is the larger of the two. */
  lemma PutNewerClock(t: Table, k: Key, e: Entry, k': Key)
    ensures Leq(ClockOf(t, k'), ClockOf(PutNewer(t, k, e), k'))
    ensures k' != k ==> Lookup(PutNewer(t, k, e), k') == Lookup(t, k')
    ensures Leq(e.clock, ClockOf(PutNewer(t, k, e), k))
    ensures ClockOf(PutNewer(t, k, e), k) in {ClockOf(t, k), e.clock}
  {
  }
}
