/** Names shared by every part of the store. */
module Types {

  type Address = string

  type Key = string

  datatype Option<+T> = None | Some(value: T)

  /** The two storage tiers, in the order of `kAllTiers`. */
  datatype Tier = Memory | Disk

  /** A worker thread. Two threads are equal when their ids, that is, private address and tid, are equal. */
  datatype ServerThread = ServerThread(ip: Address, tid: nat)
}
