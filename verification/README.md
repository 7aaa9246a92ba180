# Anna, modelled and proved in Dafny

Anna is a replicated key-value store without coordination. Every thread of every storage server owns a private store; the
threads responsible for a key are found by walking consistent-hash rings; writes are merged as lattices and passed on by
periodic gossip; servers join by telling each other about the newcomer; a monitoring node changes replication factors.
This project models those parts and proves what they promise over all inputs, all interleavings and all runs.

What is proved, from the bottom up:

- **Rings** (`Walk`, `Ring`, `RingMap`, `Responsibility`, `Metadata`). The clockwise walk with wrap-around and
  deduplication, when its loop ends, minimal disruption on insertion even with hash collisions, the exact condition under
  which removal undoes insertion, exactly who is responsible for a key and how many, and the unique primary replica.
- **Membership** (`Membership`, `JoinConvergence`, `JoinFlood`, `JoinCounts`, `JoinAgreement`, `JoinCollisions`,
  `MembershipNodes`). A state machine over servers, routing nodes and a bag of messages: whenever no message is in flight
  everybody knows exactly the announced servers, with their join counts; the flood of messages has an explicit bound;
  quiet clusters agree on every owner if and only if no two servers of a tier collide.
- **Lattices** (`Lattice`, `Causal`). Which merges are joins, and on what; the vector-clock merge is not associative, and
  exactly when it is; over any merge tree it keeps every maximal version and nothing unwritten.
- **Storage threads** (`Values`, `Server`, `Movement`, `ServerRuns`, `Conservation`, `Answers`, `Learning`, `Handoff`,
  `HandoffRuns`, `FactorChange`, `Outbox`, `StorageThread`). The handlers as a state machine: what every step keeps, that
  no request is lost, what each is answered and in which order, which factors a message leaves recorded, what is handed
  over on joins and factor changes, and that what redistribution deletes it has sent, in the same pass and with the same
  value, to everyone responsible, exactly if the value reads as present. `StorageThread` has the handlers as they run,
  updating maps in loops, each proved to be the step of the state machine.
- **Gossip** (`Spread`, `GossipNet`, `GossipSteps`, `GossipDrain`, `GossipConvergence`, `ConvergenceByType`,
  `ReplicaRuns`, `TiedWrites`, `Sessions`). A cluster of such threads: in every quiet state each replica of a key holds a
  join of the accepted writes, and for causal keys the join of their clocks with every undominated write; replicas of
  last-writer-wins keys agree exactly when one write is the latest; values only rise; a read served after an accepted
  write includes it. `Spread` is the protocol reduced to what messages carry; the other modules show that the handlers
  implement it.
- **Monitoring and caches** (`Monitor`, `MonitorAnswers`, `CacheIndex`). Factor changes are all or nothing per key,
  whatever the storage threads answer, and everyone concerned is told; the two-way index of cached keys agrees with
  itself.
- **Small clusters** (`SmallClusters`, `SmallNets`). For each promise that fails, a run of a small cluster in which it
  does. `Runs` has the induction along runs that the other modules share.

How the source is rendered:

- Hash functions are parameters. A ring is the ordered sequence of its nodes, as the ordered map iterates over it; the
  global ring holds server addresses, the local ring tids. A thread is its private address and tid; the public address adds
  nothing and is dropped. The tids of a server are listed in the order the walk finds them.
- Messages and payloads are datatypes; parsing is not modelled, and the bytes of a payload are taken to be of the type its
  tuple declares. A message with several tuples is handled tuple by tuple, so gossip in flight is a bag of tuples, and
  answers to a request with several tuples are listed one by one.
- Sets and maps that the source iterates over in an unspecified order are iterated over in an arbitrary one: the methods
  pick any element.
- Randomly chosen addressees, clocks and the outcome of a synchronous request are parameters.
- Reading a missing map entry creates one in the source; a missing factor reads as 0 either way. The explicit zeros this
  leaves behind are modelled where they are sent on, in the monitoring node.

Where the source does not do what its documentation or an obvious reading suggests, the model follows the code. The exact
condition is proved, with an input or a run at which the promise fails:

- The design text promises associative, commutative, idempotent merges (the repository's README.md:14-16). Last-writer-wins
  merging is that only when timestamps tell writes apart (`Lattice.LwwIsJoinOn`, `SmallClusters.TiedPairs`); when two
  writes share the latest timestamp two replicas can end up for good with one each (`TiedWrites.PairsAgreeExactly`,
  `SmallNets.TiedReplicas`), and so can replicas of causal writes with one clock (`TiedWrites.TiedClocks`). The causal
  merge is commutative and associative only under conditions on the clocks (`Causal.MergeCommutes`,
  `Causal.AssociativeExactly`, `Causal.NotAssociative`, `SmallClusters.TiedVersions`).
- The walk for owners loops forever when the factor exceeds the number of servers on the ring (`RingMap.WalkEnds`,
  `SmallClusters.WalkHangs`).
- Removal takes whatever node sits at the server's positions, so it undoes insertion only without collisions
  (`Ring.RemoveUndoesInsert`, `SmallClusters.CollidingRemoval`).
- After a collision the order of joins decides who owns a position, and servers that heard of each other in different orders
  disagree for good (`JoinCollisions.AgreementExactly`).
- Redistribution works on a copy of the queue: an address with more than 50 keys is never finished and nothing is ever
  cleaned up (`Handoff.CleanupExactly`, `HandoffRuns.OversizedNeverCleans`, `SmallClusters.StalledQueue`).
- A key due for removal stays due when a departure or a raised factor makes the thread responsible for it again, and the next
  cleanup drops it although it is the thread's own (`HandoffRuns.OwnKeyDroppedExactly`, `HandoffRuns.OnlyTheseRegain`,
  `HandoffRuns.DepartureDropsOwnKey`, `SmallClusters.DepartedNewcomer`, `SmallClusters.RaisedFactor`). Neither
  node_depart_handler.cpp nor replication_change_handler.cpp:147-151 touches the list. Without such a step a join loses
  nothing that reads as present (`HandoffRuns.JoinLosesNothing`).
- A value that reads as missing, an empty string or set, is accepted like any other, but when a join makes its thread give
  the key up it is dropped and sent to nobody (`HandoffRuns.HandedOverExactly`, `SmallClusters.BlankDropped`).
- A factor change may drop a key that is due for removal after a join; the cleanup then looks up a key that is not stored
  (`FactorChange.RemovableExactly`, `FactorChange.ZeroFactorsBreakCleanup`).
- A factor change that lowers one factor and displaces nobody sends nothing to new owners (`FactorChange.NewOwnersCovered`,
  `FactorChange.UncoveredNewOwner`), and a newcomer that displaces nobody is sent nothing (`Handoff.NewcomerServedExactly`,
  `SmallClusters.UnservedNewcomer`).
- A lookup answered without any factors loses the requests pending for its key and the gossip kept back for it
  (`Conservation.StepConserves`, `SmallClusters.LostRequest`, `Conservation.KeptGossipExactly`, `SmallClusters.LostGossip`),
  and an unexpected error in the answer to a lookup strands them (`Conservation.StepAwaits`,
  `SmallClusters.StrandedRequest`).
- An empty last-writer-wins value reads as a missing key and is not passed on (`GossipConvergence.PassedOnExactly`,
  `ConvergenceByType.PairsMerge`, `SmallNets.EmptyWriteStays`).
- A report from a cache that is no longer listed leaves an entry that no later listing removes (`CacheIndex.CurrentExactly`,
  `CacheIndex.StaleStays`).

## Model

| member | source | states |
|---|---|---|
| `Ring.LowerBound` | include/consistent_hash_map.hpp:56-68 | the least index whose position is not below the hash, the length of the map when there is none |
| `Ring.Ranking` | src/hash_ring/hash_ring.cpp:76-85 | the walk's servers are listed once each |
| `Ring.Owners` | src/hash_ring/hash_ring.cpp:67-89 | at most as many servers as the factor asks for, no two the same |
| `Ring.MetAt` | src/hash_ring/hash_ring.cpp:82-84 | the k-th server met is the one k nodes past the lower bound, around the end of the map |
| `Ring.RankingMembers` | src/hash_ring/hash_ring.cpp:76-85 | which servers a full walk ranks does not depend on where it starts: exactly those with a node on the ring |
| `Ring.OwnersPrefix` | src/hash_ring/hash_ring.cpp:67-89 | the owners for a factor are a prefix of the owners for every larger factor |
| `Ring.AddMembers` | include/consistent_hash_map.hpp:44-47 | map insertion adds the node exactly when its position was free and changes no other node |
| `Ring.EraseMembers` | include/consistent_hash_map.hpp:51-54 | erasing a position removes whatever node is there and nothing else, and keeps the order |
| `Ring.PlaceMembers` | include/hash_ring.hpp:50-54 | after a server's virtual nodes are placed the ring holds exactly the old nodes and the newcomer at its free positions |
| `Ring.LiftMembers` | include/hash_ring.hpp:61-65 | after removal exactly the nodes at positions the server does not hash to remain, whoever owned them |
| `Ring.RemoveUndoesInsert` | include/hash_ring.hpp:34-69 | removing a freshly inserted server restores the members; it restores the nodes if and only if none of its positions was occupied before, and the join counts if and only if the server had left none |
| `Ring.PlaceMet` | include/hash_ring.hpp:46-54 | skipping the newcomer, every walk over the grown ring meets the same servers in the same order as before |
| `Ring.MinimalDisruption` | include/hash_ring.hpp:34-58 | for every key, ring and factor, with or without hash collisions: the owners stay the same list, or the newcomer is inserted into it and, if the list was full, exactly the last owner drops out |
| `Ring.InsertKeepsSound` | include/hash_ring.hpp:34-58 | insertion keeps the node map ordered and every node owned by a member |
| `Ring.InsertKeepsExact` | include/hash_ring.hpp:34-58 | without collisions the nodes stay exactly the positions the members hash to |
| `Ring.ExactDetermined` | include/hash_ring.hpp:34-58 | two collision-free rings with equal members have equal node maps, whatever the order of insertion |
| `RingMap.RingObject.Insert` | include/hash_ring.hpp:34-58 | the in-place loop places the virtual nodes of a new server at their free positions and records its join count; it returns true for a first join or a higher join count only |
| `RingMap.RingObject.Remove` | include/hash_ring.hpp:60-69 | the in-place loop erases whatever sits at the server's positions and forgets the server and its join count |
| `RingMap.VisitFirstRound` | src/hash_ring/hash_ring.cpp:76-85 | what the loop has collected after k steps of its first round is the distinct servers among the first k met |
| `RingMap.WalkEnds` | src/hash_ring/hash_ring.cpp:65-89 | the loop of the walk ends for a factor if and only if the ring has that many distinct servers |
| `RingMap.ResponsibleGlobal` | src/hash_ring/hash_ring.cpp:67-89 | for a servable factor the loop terminates and returns exactly the first that many distinct servers clockwise from the hash |
| `RingMap.ResponsibleLocal` | src/hash_ring/hash_ring.cpp:93-115 | the same for tids on a local ring |
| `Responsibility.CrossMembers` | src/hash_ring/hash_ring.cpp:46-56 | a thread is listed exactly when its server and its tid both are |
| `Responsibility.CollectMembers` | src/hash_ring/hash_ring.cpp:41-58 | a thread is collected over several tiers exactly when some tier lists it |
| `Responsibility.Responsible` | src/hash_ring/hash_ring.cpp:23-63 | no answer exactly for a plain key whose factor is unknown |
| `Responsibility.CollectServers` | src/hash_ring/hash_ring.cpp:46-56 | the nested loops list every owning tid on every owning server |
| `Responsibility.CollectTier` | src/hash_ring/hash_ring.cpp:41-57 | exactly the threads whose server is among the first servers of the walk over the global ring, as many as the global factor, and whose tid is among the first tids of the walk over the local one, as many as the local factor: their number is the product of the two, none listed twice |
| `Responsibility.GetResponsibleThreads` | src/hash_ring/hash_ring.cpp:23-63 | the threads of all listed tiers in order; metadata keys by the memory tier under fixed factors; failure exactly for a plain key without a factor; who and how many they are is in `Responsibility.ResponsibleExactly`, `Responsibility.ResponsibleCount` and the two rows after them |
| `Responsibility.ResponsibleExactly` | src/hash_ring/hash_ring.cpp:41-57 | a thread is responsible for a plain key of known factors if and only if, in one of the tiers asked about, its server is among the first servers met on the global ring, as many as the global factor, and its tid among the first tids met on the local ring, as many as the local factor |
| `Responsibility.ResponsibleCount` | src/hash_ring/hash_ring.cpp:42-56 | in one tier the responsible threads are as many as the global factor times the local factor, each cut to what the ring has, and none is listed twice |
| `Responsibility.ResponsibleForMetadata` | src/hash_ring/hash_ring.cpp:175-194 | a thread is responsible for a metadata key if and only if its server is the nearest of the memory ring and its tid is among the nearest of the memory tier, as many as the default local factor |
| `Responsibility.MetadataCount` | src/hash_ring/hash_ring.cpp:175-194 | those are as many as the default local factor, cut to what the ring has, none listed twice, and nobody when the memory ring is empty |
| `Responsibility.UniquePrimary` | src/kvs/utils.cpp:67-100 | with agreed rings and factors exactly one thread of both tiers calls itself primary when the highest replicating tier has servers and threads, and none otherwise |
| `Responsibility.PrimaryIsResponsible` | src/kvs/utils.cpp:86-97 | with a positive local factor the primary is the first responsible thread of its tier and is among those of all tiers |
| `Metadata.ReplicationKeyRoundTrip` | include/metadata.hpp:133-158 | extracting the key from its replication metadata key gives it back, for every key, delimiters included |
| `Metadata.IsMetadataExactly` | include/metadata.hpp:87-96 | a key is metadata if and only if it is the identifier or begins with the identifier and a delimiter |
| `Metadata.KeyOfExactly` | include/metadata.hpp:145-158 | for any identifier and any kind without a delimiter, extraction gives what follows the kind if the kind is replication and the empty key otherwise |
| `Metadata.ReplicationKeyInjective` | include/metadata.hpp:133-139 | different keys have different replication metadata keys |
| `Lattice.MaxMerge` | common/include/lattices/core_lattices.hpp:31-39 | through the signed copy the comparison still yields the unsigned maximum |
| `Lattice.JoinIsLeast` | common/include/lattices/core_lattices.hpp:31-39 | a merge that is commutative, associative and idempotent gives the least value above both arguments |
| `Lattice.LwwCommutes` | common/include/lattices/lww_pair_lattice.hpp:46-51 | the order of two pairs matters if and only if they differ and share a timestamp |
| `Lattice.LwwIsJoinOn` | common/include/lattices/lww_pair_lattice.hpp:46-51 | last-writer-wins merging is a join on a set of pairs if and only if timestamps tell its pairs apart |
| `Lattice.UnionIsJoin` | common/include/lattices/core_lattices.hpp:54-58 | set merging is a join on all sets |
| `Lattice.SetLattice.Merge` | common/include/lattices/core_lattices.hpp:54-58 | inserting element by element, in any order, gives the union |
| `Lattice.MapJoin` | common/include/lattices/core_lattices.hpp:147-151 | pointwise: both sides' keys, merged where they share one |
| `Lattice.MapJoinIsJoin` | common/include/lattices/core_lattices.hpp:133-151 | commutativity, associativity and idempotence lift from the values to maps of them |
| `Lattice.MapLeq` | common/include/lattices/core_lattices.hpp:133-151 | the order of maps is the pointwise order of their values |
| `Lattice.MapLattice.InsertPair` | common/include/lattices/core_lattices.hpp:136-144 | one key becomes its merge with the incoming value, or that value if it was missing; the rest stays |
| `Lattice.MapLattice.Merge` | common/include/lattices/core_lattices.hpp:147-151 | the insertion loop computes the pointwise join whatever the iteration order |
| `Causal.ClockLaws` | common/include/lattices/single_key_causal_lattice.hpp:52-61 | the order of vector clocks is a partial order with merge as its join |
| `Causal.MergeIdempotent` | common/include/lattices/single_key_causal_lattice.hpp:52-61 | merging a version with itself changes nothing |
| `Causal.MergeCommutes` | common/include/lattices/single_key_causal_lattice.hpp:52-61 | two versions merge to the same in either order if and only if their clocks differ or the versions are equal |
| `Causal.AssociativeExactly` | common/include/lattices/single_key_causal_lattice.hpp:52-61 | for three clocks, merging is associative for all values if and only if the clocks are regroupable |
| `Causal.NotAssociative` | common/include/lattices/single_key_causal_lattice.hpp:52-61 | three concrete versions whose merge depends on the grouping |
| `Causal.ClockAbove` | common/include/lattices/single_key_causal_lattice.hpp:52-61 | over any merge tree the clock is above the clock of every write of the tree |
| `Causal.ClockAttained` | common/include/lattices/single_key_causal_lattice.hpp:52-61 | over any merge tree every entry of the clock comes from some write of the tree |
| `Causal.KeepsMaximal` | common/include/lattices/single_key_causal_lattice.hpp:52-61 | over any merge tree of writes with well-formed, distinct clocks the value covers the value of every maximal write |
| `Causal.NothingUnwritten` | common/include/lattices/single_key_causal_lattice.hpp:52-61 | over any merge tree the value is below everything that is above all written values |
| `Causal.DominatingWins` | common/include/lattices/single_key_causal_lattice.hpp:52-61 | if one write dominates all others the value is exactly that write's |
| `Causal.SingleKeyCausalLattice.Merge` | common/include/lattices/single_key_causal_lattice.hpp:52-61 | in place, a clock that dominates or equals replaces the value, a concurrent one merges it, an older one leaves it, and the clock becomes the join |
| `Causal.MultiKeyCausalLattice.Merge` | common/include/lattices/multi_key_causal_lattice.hpp:62-75 | the same for value and dependency map together |
| `Causal.TaggedJoinIsJoin` | common/include/lattices/multi_key_causal_lattice.hpp:72-73 | dependency maps and values together merge as a join |
| `Causal.SingleKeyKeepsMaximal` | common/include/lattices/single_key_causal_lattice.hpp:52-61 | every element of every maximal write is in the merged set |
| `Causal.SingleKeyNothingUnwritten` | common/include/lattices/single_key_causal_lattice.hpp:52-61 | every element of the merged set was written |
| `Causal.MultiKeyKeepsMaximal` | common/include/lattices/multi_key_causal_lattice.hpp:62-75 | every element and every dependency clock of every maximal write is covered |
| `Causal.MultiKeyNothingUnwritten` | common/include/lattices/multi_key_causal_lattice.hpp:62-75 | value and dependencies are below everything that is above all writes |
| `Membership.AdmitMembers` | include/hash_ring.hpp:34-58 | admission adds the server to the ring of its tier and to no other, and is news whenever the server was absent |
| `Membership.PopulateMembers` | src/kvs/server.cpp:138-146 | the rings built from a snapshot hold exactly its members, tier by tier |
| `Membership.ServerTells` | src/kvs/node_join_handler.cpp:36-82 | on news, and only then, a server answers the newcomer and tells every other server it knows, once for each ring the server is on |
| `Membership.HubTells` | src/route/membership_handler.cpp:39-72 | on news, and only then, a routing node tells every server it knows but the newcomer, once for each ring the server is on |
| `Membership.AnnouncementContents` | src/kvs/server.cpp:160-187 | a starting server tells every other server of its rings and every routing node |
| `JoinConvergence.StepKeepsInv` | src/kvs/node_join_handler.cpp:36-82 | every seed, announcement and delivery keeps the protocol's invariant, in any interleaving of concurrent joiners with stale snapshots |
| `JoinConvergence.RunKeepsInv` | src/kvs/server.cpp:138-187 | the invariant holds in every state of every run |
| `JoinConvergence.JoinsConverge` | src/kvs/node_join_handler.cpp:36-82 | in every run, whenever no message is in flight, the rings of every announced server and of every routing node hold exactly the announced servers, each in its own tier |
| `JoinCounts.SnapshotNews` | src/kvs/server.cpp:138-150 | to a server that has just started, a join of another server in its snapshot is news if and only if its join count is above 0 |
| `JoinCounts.StepKeepsCounts` | src/kvs/node_join_handler.cpp:36-69 | every step keeps: recorded join counts never exceed the servers' own, routing nodes have the exact count of everyone they know, and whoever is known to a server has its exact count or is being sent it |
| `JoinCounts.CountsConverge` | include/hash_ring.hpp:34-58 | in every run, whenever no message is in flight, the rings of every announced server and of every routing node record each announced server with exactly its own join count |
| `JoinFlood.AdmitSettles` | include/hash_ring.hpp:34-58 | insertion reports news if and only if the ring had not settled on that join count; it settles it and unsettles nobody |
| `JoinFlood.StepLowers` | src/kvs/node_join_handler.cpp:36-82 | every step lowers a potential over unsettled pairs, messages in flight and servers still to come |
| `JoinFlood.FloodDiesOut` | src/kvs/node_join_handler.cpp:36-82 | a run over n servers and k routing nodes has at most an explicit number of steps, whatever the interleaving |
| `JoinAgreement.RunKeepsExact` | include/hash_ring.hpp:34-58 | if no two servers of one tier hash to one position, every ring in every state of every run holds exactly its members' positions |
| `JoinAgreement.QuietClusterAgrees` | src/hash_ring/hash_ring.cpp:67-89 | in a quiet state all servers and routing nodes then compute the same owners for every key, tier and factor |
| `JoinCollisions.FirstKeeps` | include/consistent_hash_map.hpp:44-47 | of two servers of one tier that hash to one position the one inserted first owns what falls there, so the order of insertion decides |
| `JoinCollisions.AgreementExactly` | src/hash_ring/hash_ring.cpp:67-89 | every quiet state of every run agrees on all owners if and only if no two servers of one tier hash to one position; with a collision there is a run that ends quiet and in disagreement |
| `MembershipNodes.TellAll` | src/kvs/node_join_handler.cpp:57-74 | the nested loops send one message for every entry of every ring but the servers left out |
| `MembershipNodes.ServerNode.constructor` | src/kvs/server.cpp:138-150 | the bootstrap loop yields rings with the snapshot's servers at join count 0, which `JoinCounts.SnapshotNews` makes visible, and then the server itself with its own |
| `MembershipNodes.ServerNode.Announce` | src/kvs/server.cpp:160-187 | one message for every ring entry of every other server and one to every routing node |
| `MembershipNodes.ServerNode.NodeJoin` | src/kvs/node_join_handler.cpp:36-82 | the ring gains the newcomer; exactly if that is news it is answered and passed on for every ring entry of the other servers |
| `MembershipNodes.RoutingNode.MembershipJoin` | src/route/membership_handler.cpp:39-72 | the ring gains the newcomer; exactly if that is news it is passed on for every ring entry of the other servers |
| `MembershipNodes.RoutingNode.Seed` | src/route/seed_handler.cpp:22-34 | the snapshot lists every member of every ring in its tier, and nobody else |
| `Values.CombineBottom` | include/kvs/base_kv_store.hpp:38 | the first value put for a key, merged into the element a store creates for it, is kept as it is |
| `Values.BottomReads` | include/kvs/server_utils.hpp:63-153 | what a store holds before the first write reads as missing in every type but the ordered set |
| `Movement.SendGossip` | src/kvs/utils.cpp:17-51 | exactly the queued keys that are stored and read as present are sent, each to the address it was queued for, with the value held |
| `Movement.JoinTargets` | src/kvs/node_join_handler.cpp:106-120 | a key is queued only for threads responsible for it after the join |
| `ServerRuns.StepKeepsInv` | src/kvs/user_request_handler.cpp:84-101 | every request, gossip, reply, factor change, join, departure, round and redistribution step keeps: one value of the key's own real type in that type's store for each stored key and nothing else stored, a known factor for every stored plain key, only plain keys pending; and no stored key changes type |
| `ServerRuns.RunKeepsInv` | src/kvs/utils.cpp:60-65 | this holds in every state of every run of a storage thread |
| `ServerRuns.JoinAlwaysKnows` | src/kvs/node_join_handler.cpp:121-124 | in every run the branch of the join handler for a missing factor is never reached |
| `Conservation.StepConserves` | src/kvs/replication_response_handler.cpp:70-179 | each step accounts for every tuple with a response address: held before plus received equals answered plus held after plus lost, and the only loss is all tuples pending for a plain key of unknown factor whose lookup comes back without factors |
| `Conservation.RequestsConserved` | src/kvs/user_request_handler.cpp:38-127 | over every run without such replies, tuples received with a response address are exactly those answered and those pending, counted per request, id, type and key |
| `Conservation.StepAwaits` | src/kvs/replication_response_handler.cpp:54-66 | a step leaves a key with something pending without a lookup under way if and only if the last lookup for it fails with an unexpected error |
| `Conservation.PendingAwaited` | src/kvs/gossip_handler.cpp:64-77 | in every run without such failures a key with pending requests or gossip has a lookup under way in every state |
| `Conservation.KeptGossipExactly` | src/kvs/replication_response_handler.cpp:181-229 | gossip kept back stays until a usable reply about its key; a responsible thread then merges all of it in order, another passes all of it on to the responsible threads, and all of it is lost if and only if the reply has no factors for a plain key of unknown factor |
| `Conservation.MetadataGossipForwarded` | src/kvs/gossip_handler.cpp:53-63 | gossip about a metadata key of other threads leaves the state alone and goes to exactly the responsible threads |
| `Conservation.KeptGossipForwarded` | src/kvs/replication_response_handler.cpp:202-222 | when a reply shows that gossip kept back belongs to others, exactly the values kept back go to exactly the responsible threads of the tier |
| `Answers.RequestExactly` | src/kvs/user_request_handler.cpp:37-128 | a request is served by a responsible thread: a GET with exactly the value held, or a missing-key error if there is none or it reads as missing, a PUT by merging if its type is that of the value held, and the reply tells the client to drop its cached addresses if and only if it listed some and not as many as there are; a metadata request elsewhere is rejected, and any other is put last among those pending and looked up |
| `Answers.RequestsInTurn` | src/kvs/user_request_handler.cpp:33-120 | the tuples of a request are handled first to last, each in the state the earlier ones left |
| `Answers.GossipExactly` | src/kvs/gossip_handler.cpp:28-79 | gossip is merged by a responsible thread without marking the key as changed; metadata goes on to exactly the responsible threads, and anything else is put last among what is kept for the key and looked up |
| `Answers.WrongThreadExactly` | src/kvs/replication_response_handler.cpp:83-98 | every answer to a pending request says wrong thread if and only if this thread is not responsible under the factors just learned |
| `Answers.PendingAnswered` | src/kvs/replication_response_handler.cpp:80-172 | once a factor is known each pending request that asks for an answer gets one, in its turn: a rejection if the thread is not responsible, and otherwise, for a GET, exactly the value left by the requests before it, with a missing-key error if and only if there is none or it reads as missing |
| `Answers.DrainedValue` | src/kvs/replication_response_handler.cpp:70-201 | a responsible thread then holds what it held merged with the pending writes and after them the pending gossip, first to last, skipping other types; another thread holds what it held |
| `Answers.AnsweredInOrder` | src/kvs/user_request_handler.cpp:116-118 | in every run two requests that wait for the factor of one key are answered in the order they came, by the first usable reply, the later one from the value left by all before it |
| `Handoff.OwnersAfterJoin` | src/kvs/node_join_handler.cpp:36-38 | how the owners of any key, plain or metadata, change when a server joins the thread's tier for the first time |
| `Handoff.LosesExactly` | src/kvs/node_join_handler.cpp:112-115 | a responsible thread stops being responsible if and only if the newcomer replaces its server; every newly responsible thread is the newcomer's |
| `Handoff.JoinHandoff` | src/kvs/node_join_handler.cpp:84-120 | if the newcomer replaces its server a holder queues the key for every thread now responsible, the newcomer's included, and for removal; otherwise it queues nothing for it |
| `Handoff.RejoinHandoff` | src/kvs/node_join_handler.cpp:84-111 | when a server of this tier comes back, the keys stored here that it is responsible for are queued for its responsible threads if and only if its join count is news, and no others; nothing is due for removal |
| `Handoff.JoinElsewhere` | src/kvs/node_join_handler.cpp:36-84 | a join that is no news or is in the other tier changes the rings and nothing else |
| `Handoff.NewcomerServedExactly` | src/kvs/node_join_handler.cpp:84-120 | some old holder queues the key for the newcomer if and only if the old owners were as many as the factor asks for |
| `Handoff.LeftoverExactly` | src/kvs/server.cpp:666-693 | an address is finished by a pass if and only if it has at most 50 keys queued |
| `Handoff.PassesStall` | src/kvs/server.cpp:666-693 | what one pass leaves queued every later pass leaves queued |
| `Handoff.CleanupExactly` | src/kvs/server.cpp:661-706 | a pass cleans up if and only if no address has more than 50 keys queued; then that pass has sent every queued key that reads as present to every address it was queued for, and drops exactly the keys due |
| `HandoffRuns.PassExactly` | src/kvs/server.cpp:661-706 | a pass over a queue with an address of more than 50 keys leaves such an address and drops nothing; any other pass sends the whole queue, empties it and drops exactly the keys due |
| `HandoffRuns.OversizedNeverCleans` | src/kvs/server.cpp:666-706 | once an address has more than 50 keys queued no later pass of the run drops anything |
| `HandoffRuns.DroppedAfterSent` | src/kvs/server.cpp:661-706 | in every run, joins included, when a key that was queued for an address and due for removal is dropped other than by a factor change that lists it, the dropping step is a pass that itself sends that address exactly the value it drops if that reads as present, and nothing of the key otherwise |
| `HandoffRuns.JoinLosesNothing` | src/kvs/node_join_handler.cpp:84-126 | in every run in which a join makes a holder give up a key: when the key is dropped, with no departure from the deciding ring and no change or lookup of its factor since the join, the holder is still not responsible, somebody is, and the dropping step sends the value dropped, if it reads as present, to every thread responsible at that moment |
| `HandoffRuns.HandedOverExactly` | src/kvs/utils.cpp:37-41 | in such a run the value dropped reaches the threads responsible for it if and only if it reads as present; an empty string or set is dropped and sent to none of them |
| `HandoffRuns.OwnKeyDroppedExactly` | src/kvs/server.cpp:697-705 | a pass drops a key its own thread is responsible for if and only if something is queued, no address has more than 50 keys, and such a key is due for removal |
| `HandoffRuns.OnlyTheseRegain` | src/kvs/node_depart_handler.cpp:30-31 | a key the thread gave up becomes its own again only by a departure from the ring that decides about the key or by a change or lookup of its factor; no join does it |
| `HandoffRuns.DepartureDropsOwnKey` | src/kvs/node_depart_handler.cpp:30-31 | if the newcomer that replaced the thread departs before the pass and its positions had been free, the thread is responsible again and the pass drops the key all the same |
| `FactorChange.HolderExactly` | src/kvs/replication_change_handler.cpp:43-151 | for updates with distinct keys a holder keeps the key, and its mark as changed, if and only if it is responsible under the new factors; it sends the value it held, if that reads as present, to exactly the threads now responsible when it no longer is, and otherwise, if it was the first responsible thread and no listed factor falls, to exactly the newly responsible ones |
| `FactorChange.ChangeHolderExactly` | src/kvs/replication_change_handler.cpp:43-151 | the same for the handler with responsibility decided by the rings of all tiers |
| `FactorChange.NewOwnersCovered` | src/kvs/replication_change_handler.cpp:81-110 | with agreed rings and factors and the key held by all its owners, a newly responsible thread is sent it by some old owner if and only if no listed factor falls or some old owner is no longer responsible |
| `FactorChange.UnlistedKept` | src/kvs/replication_change_handler.cpp:43-151 | a key that no update names keeps its value and its place in the change set, and nothing is sent of it |
| `Learning.ChangedFactors` | src/kvs/replication_change_handler.cpp:56-74 | after a change message each tier of each key has, globally and locally, the factor of the last update that lists that tier for that key, and what it had if none does |
| `Learning.LatestIsLast` | src/kvs/replication_change_handler.cpp:43-74 | the factor that counts is that of the update with no later one listing the tier for the key, and there is none if and only if no update lists it |
| `Learning.TaughtFactors` | src/kvs/replication_response_handler.cpp:36-66 | a reply with factors sets exactly the tiers it lists, globally and locally; a reply that none are stored sets every tier to its configured default; any other reply, and any reply about another key, changes no factor |
| `Learning.OnlyMessagesLookUp` | src/hash_ring/hash_ring.cpp:35-39 | in every run only a request, gossip or a reply about a key makes a thread look a factor up: gossip rounds, joins and factor changes find the factors of all the keys they go through |
| `FactorChange.UncoveredNewOwner` | src/kvs/replication_change_handler.cpp:81-110 | a concrete two-server cluster and message under which the new owner is sent nothing |
| `FactorChange.RemovableAfterChange` | src/kvs/replication_change_handler.cpp:147-151 | after a message the cleanup stays possible if and only if the thread stays responsible for every updated key due for removal |
| `FactorChange.RemovableExactly` | src/kvs/server.cpp:697-705 | a step of any kind leaves the cleanup possible if and only if it is no factor change, or one after which the thread stays responsible for every updated key due for removal |
| `FactorChange.ZeroFactorsBreakCleanup` | src/kvs/server.cpp:699-701 | setting every factor of a key due for removal to 0 makes the next cleanup look up a key that is no longer stored |
| `Spread.PutKeeps` | src/kvs/user_request_handler.cpp:95-101 | accepting a write keeps: every accepted write is at each replica, on its way to it, or held by a thread that will send it, and nothing exceeds the accepted writes |
| `Spread.ArriveKeeps` | src/kvs/gossip_handler.cpp:48-51 | merging what was on its way keeps this, and it is then below what the replica holds |
| `Spread.ForgetKeeps` | src/kvs/replication_response_handler.cpp:228 | forgetting what has been merged keeps this |
| `Spread.SendKeeps` | src/kvs/server.cpp:458-488 | a round by a thread that owes one keeps this |
| `Spread.QuietConverges` | src/kvs/server.cpp:458-488 | with nothing under way or owed every replica holds a join of the accepted writes, merged from them |
| `GossipSteps.WhoHere` | src/hash_ring/hash_ring.cpp:23-63 | a handler finds its own thread responsible in its tier exactly when it is a replica of the key |
| `GossipConvergence.RoundMessages` | src/kvs/server.cpp:458-488 | a round sends a key exactly to its other replicas, and exactly the value held if that reads as present |
| `GossipConvergence.StepKeepsNet` | src/kvs/gossip_handler.cpp:31-85 | every request, reply, round and delivery anywhere in the cluster keeps the invariant of the protocol for every key |
| `GossipConvergence.ReplicasConverge` | src/kvs/server.cpp:458-488 | in every run with fixed membership and agreed factors, whenever nothing about a key is in flight, kept back or owed, every replica holds a least value above all writes accepted for it, merged from those writes; where the order tells values apart all replicas hold the same value. For causal values the order is that of their clocks |
| `GossipConvergence.NothingFromNothing` | src/kvs/gossip_handler.cpp:43-51 | a key for which no write was accepted is held by nobody |
| `ConvergenceByType.SetsMerge` | common/include/lattices/core_lattices.hpp:54-58 | non-empty sets rise by merging and the order tells them apart, so their replicas agree |
| `ConvergenceByType.OrderedSetsMerge` | common/include/lattices/core_lattices.hpp:95-99 | the same for ordered sets |
| `ConvergenceByType.PairsMerge` | include/kvs/server_utils.hpp:63-71 | last-writer-wins writes always rise to a latest one; their order tells them apart, and merging them is a join, if and only if no two different writes share a timestamp; all of them read as present if and only if none is the empty string |
| `TiedWrites.LatestHeld` | common/include/lattices/lww_pair_lattice.hpp:46-51 | in every quiet state of every run every replica holds the one accepted write with the latest timestamp, if there is such a one |
| `TiedWrites.PairsAgreeExactly` | common/include/lattices/lww_pair_lattice.hpp:46-51 | for every deployment and every non-empty set of last-writer-wins writes: the replicas agree in all quiet states of all runs that accept exactly these writes if and only if one of them bears the latest timestamp alone or the key has no two replicas |
| `TiedWrites.TiedStamps` | common/include/lattices/lww_pair_lattice.hpp:46-51 | two writes with one timestamp at any two replicas: a run that ends quiet with each replica holding the other's write |
| `ConvergenceByType.CausalRises` | common/include/lattices/single_key_causal_lattice.hpp:52-61 | single-key and multi-key causal values rise by their clocks, although their merge is no join |
| `ConvergenceByType.SingleCausalConverges` | common/include/lattices/single_key_causal_lattice.hpp:52-61 | in every quiet state of every run the clock of every replica of a single-key causal key is the join of the accepted clocks, every element was written, and if each write bears a tick of its own every element of every undominated write is there and a write that dominates all others is exactly what is held |
| `ConvergenceByType.MultiCausalConverges` | common/include/lattices/multi_key_causal_lattice.hpp:62-75 | the same for multi-key causal keys, dependencies included |
| `ConvergenceByType.SameClocks` | common/include/lattices/single_key_causal_lattice.hpp:52-61 | a clock that joins the accepted clocks is unique, so the replicas of a causal key agree on it |
| `TiedWrites.TiedClocks` | common/include/lattices/single_key_causal_lattice.hpp:52-61 | two causal writes with one clock at any two replicas: a run that ends quiet with one clock everywhere and each replica holding the other's value |
| `GossipConvergence.PassedOnExactly` | src/kvs/utils.cpp:37-41 | a changed key is passed on by its thread's round if and only if it has another replica and its value reads as present |
| `Sessions.StepRises` | src/kvs/utils.cpp:60-65 | every step of the cluster keeps or raises what each thread holds of each key, in lattice order, or in clock order for causal values |
| `Sessions.ValuesRise` | src/kvs/utils.cpp:60-65 | over any stretch of any run what a thread holds of a key only rises |
| `Sessions.ReadsSeeWrites` | src/kvs/user_request_handler.cpp:69-105 | a GET served at a thread after a PUT it accepted is answered at once, without error, with a value that includes the PUT |
| `StorageThread.StorageThread.ResponsibleThreads` | src/hash_ring/hash_ring.cpp:23-63 | the threads responsible for the key, or no answer and a lookup exactly when a plain key's factor is unknown |
| `StorageThread.StorageThread.ServeTuple` | src/kvs/user_request_handler.cpp:69-110 | a GET answers what the thread holds and changes nothing, a PUT is merged or refused, anything else is answered empty |
| `StorageThread.StorageThread.UserTuple` | src/kvs/user_request_handler.cpp:38-120 | a responsible thread serves the tuple; another rejects a metadata key and keeps any other key pending with a lookup; an unknown factor also keeps it pending |
| `StorageThread.StorageThread.UserRequest` | src/kvs/user_request_handler.cpp:26-127 | the loop serves the tuples in order, each in the state the earlier ones left: a PUT is merged into the declared type's store and remembered for the next round if and only if it does not contradict the stored type, a GET answers the value held with a missing-key error exactly when it is absent or empty; answers go out only if there is a response address |
| `StorageThread.StorageThread.GossipTuple` | src/kvs/gossip_handler.cpp:31-78 | a responsible thread merges what fits the stored type; another forwards a metadata key to the responsible threads and keeps any other key back with a lookup |
| `StorageThread.StorageThread.GossipMessage` | src/kvs/gossip_handler.cpp:24-85 | the loop handles the tuples in order, each in the state the earlier ones left, merging into the stores what fits the stored type |
| `StorageThread.StorageThread.SettleRequest` | src/kvs/replication_response_handler.cpp:83-171 | answered with a wrong-thread error if not responsible, otherwise served; without a response address only a PUT has an effect and nothing is answered; the answers are those of `Answers.WrongThreadExactly` and `Answers.PendingAnswered` |
| `StorageThread.StorageThread.SettleRequests` | src/kvs/replication_response_handler.cpp:80-172 | the loop settles the pending requests in order of arrival, each in the state the earlier ones left |
| `StorageThread.StorageThread.DrainPendingRequests` | src/kvs/replication_response_handler.cpp:70-179 | all requests pending for the key are settled and erased; if its factor is still unknown they are erased unsettled and a lookup is sent |
| `StorageThread.StorageThread.AbsorbPending` | src/kvs/replication_response_handler.cpp:189-201 | the loop merges every value kept back that fits the stored type, in order of arrival |
| `StorageThread.StorageThread.ForwardPending` | src/kvs/replication_response_handler.cpp:203-221 | every value kept back goes to every responsible thread |
| `StorageThread.StorageThread.DrainPendingGossip` | src/kvs/replication_response_handler.cpp:181-229 | gossip kept back for the key is merged by a responsible thread and forwarded by another, and erased; if the factor is still unknown it is erased unmerged and a lookup is sent |
| `StorageThread.StorageThread.FactorResponse` | src/kvs/replication_response_handler.cpp:26-229 | factors are learned tier by tier, or the defaults, as `Learning.TaughtFactors` says, with no entry for an empty update; everything pending for the key is then drained, requests first; a wrong-thread reply only repeats the lookup, any other error does nothing |
| `StorageThread.StorageThread.RoundQueue` | src/kvs/server.cpp:462-478 | every changed key is queued for every other thread responsible for it in any tier and for nobody else, with a lookup for each unknown factor |
| `StorageThread.StorageThread.GossipRound` | src/kvs/server.cpp:458-491 | the values of the changed keys that read as present go to all their other replicas, and the change set is emptied |
| `StorageThread.StorageThread.JoinKey` | src/kvs/node_join_handler.cpp:88-124 | on a rejoin a key is queued for the rejoining server's responsible threads; on a first join that leaves this thread unresponsible, for all responsible threads and for removal; otherwise not at all |
| `StorageThread.StorageThread.JoinQueue` | src/kvs/node_join_handler.cpp:84-126 | the loop adds exactly these errands and removals for all stored keys to what was queued before |
| `StorageThread.StorageThread.NodeJoin` | src/kvs/node_join_handler.cpp:36-126 | the ring gains the server, and exactly if that is news in this thread's tier the queues grow by what the stored keys require |
| `StorageThread.StorageThread.TakeKeys` | src/kvs/server.cpp:671-679 | all keys, or exactly 50 of them |
| `StorageThread.StorageThread.TakeBatch` | src/kvs/server.cpp:666-693 | a batch for every address, and as finished exactly the addresses that were sent everything |
| `StorageThread.StorageThread.RemoveKeys` | src/kvs/server.cpp:699-702 | exactly the given keys disappear, from their stores and from the list |
| `StorageThread.StorageThread.Redistribute` | src/kvs/server.cpp:661-706 | a pass sends at most 50 keys per address, takes finished addresses off the queue, and only when the queue is empty drops the keys due for removal |
| `StorageThread.StorageThread.AnyFalls` | src/kvs/replication_change_handler.cpp:54-74 | whether some listed factor is lower than it was |
| `StorageThread.StorageThread.ChangeQueue` | src/kvs/replication_change_handler.cpp:82-110 | the key is queued for all responsible threads if this one no longer is, and, if no factor falls and this thread was the first responsible one, for those that are new |
| `StorageThread.StorageThread.UpdateFactor` | src/kvs/replication_change_handler.cpp:44-141 | the factors are written, to the effect of `Learning.ChangedFactors`, whether or not the key is stored; for a stored key the plan grows by its targets and, if no longer responsible, its removal |
| `StorageThread.StorageThread.UpdateFactors` | src/kvs/replication_change_handler.cpp:43-142 | the loop goes through the updates in order, each seeing the factors the earlier ones wrote |
| `StorageThread.StorageThread.ChangeReplication` | src/kvs/replication_change_handler.cpp:36-151 | the planned values are sent before the keys no longer this thread's are dropped from stores, key list and change set |
| `Outbox.EnqueueAll` | src/kvs/node_join_handler.cpp:117-119 | every listed thread is queued the key and nobody else |
| `Outbox.Send` | src/kvs/utils.cpp:17-51 | the nested loops send every queued key that is stored and reads as present, once per address, with the value held |
| `CacheIndex.CacheIndex.DropBack` | src/kvs/cache_ip_response_handler.cpp:52-56 | exactly the cache's links to the dropped keys go |
| `CacheIndex.CacheIndex.AddBoth` | src/kvs/cache_ip_response_handler.cpp:60-65 | both directions gain exactly the reported links |
| `CacheIndex.CacheIndex.CacheResponse` | src/kvs/cache_ip_response_handler.cpp:28-66 | afterwards the cache is linked to exactly the reported keys, other caches as before, and the two directions agree; on the way the old key set is edited in place to find the dropped keys |
| `CacheIndex.CacheIndex.ManagementResponse` | src/kvs/management_node_response_handler.cpp:26-45 | exactly the links of caches no longer listed go, and the two directions agree |
| `CacheIndex.CurrentExactly` | src/kvs/management_node_response_handler.cpp:29-45 | an event leaves an entry for an unlisted cache if and only if it is a report, with keys, from such a cache |
| `CacheIndex.StaleStays` | src/kvs/management_node_response_handler.cpp:29-45 | such an entry survives every event but a report or a listing of that cache |
| `Monitor.MatchesBothWays` | include/metadata.hpp:39-65 | the one-sided comparison is equality if and only if it holds both ways |
| `Monitor.FailedExactly` | src/monitor/replication_helpers.cpp:109-135 | whatever comes back, the failed keys are exactly those whose write was sent and not answered in time and those some answer to a write refuses, delimiters in keys included |
| `Monitor.AllOrNothing` | src/monitor/replication_helpers.cpp:69-175 | whatever comes back, a requested key that failed has exactly the factors it had and any other requested key has every requested factor; a key that was not requested has what it had, unless an answer refuses it, and then it has none |
| `Monitor.UnaskedExactly` | src/monitor/replication_helpers.cpp:172-175 | a key that was not requested keeps its factors if and only if no answer to a sent write refuses it or it had none |
| `Monitor.NoticesTrue` | src/monitor/replication_helpers.cpp:137-169 | nodes are told only about requested keys that did not fail, and with the factors those keys end up with |
| `Monitor.ToldExactly` | src/monitor/replication_helpers.cpp:141-161 | for a requested key that did not fail, a notice with its final factors goes to every routing node and to every server that owns it in some tier under the new or the old factors, and to no other node |
| `Monitor.MonitoringNode.WriteRequests` | src/monitor/replication_helpers.cpp:69-107 | exactly the requests that change something are written and sent to where their metadata key is kept; the factors before are remembered for all |
| `Monitor.MonitoringNode.CollectFailed` | src/monitor/replication_helpers.cpp:110-135 | address by address: failed are all keys of a request that timed out and the keys an answer refuses |
| `Monitor.MonitoringNode.TellKey` | src/monitor/replication_helpers.cpp:141-161 | the owners under the larger of the two factors in each tier and all routing nodes are told the key's factors, and nobody else, as `Monitor.ToldExactly` says without reference to the loop |
| `Monitor.MonitoringNode.TellAll` | src/monitor/replication_helpers.cpp:137-163 | this for every key that did not fail |
| `Monitor.MonitoringNode.Restore` | src/monitor/replication_helpers.cpp:172-175 | exactly the failed keys are set back |
| `Monitor.MonitoringNode.ChangeReplicationFactor` | src/monitor/replication_helpers.cpp:51-175 | the whole change leaves the factors of `Monitor.AllOrNothing` and sends the notices of `Monitor.NoticesTrue` and `Monitor.ToldExactly` |
| `MonitorAnswers.RejectsExactly` | src/kvs/user_request_handler.cpp:38-57 | the request handler of a storage thread rejects, of a write of metadata keys, exactly those keys of the request that the thread is not responsible for |
| `MonitorAnswers.FailsExactly` | src/monitor/replication_helpers.cpp:110-135 | when the answers are those of the threads' request handler to any requests with exactly the keys meant for them, a key fails if and only if its factor changes and its own write is not answered or goes to a thread that is not responsible |
| `MonitorAnswers.ChangeAllOrNothing` | src/monitor/replication_helpers.cpp:69-175 | with those answers a change is all or nothing for every key, and keys that were not requested keep what they had |
| `SmallClusters.WalkHangs` | src/hash_ring/hash_ring.cpp:76-85 | one server and a factor of 2: however long the loop runs it never finds a second server |
| `SmallClusters.CollidingRemoval` | include/hash_ring.hpp:60-69 | two servers at one position: removing the one that came second takes the node of the first |
| `SmallClusters.TiedPairs` | common/include/lattices/lww_pair_lattice.hpp:46-51 | two pairs with one timestamp whose merge depends on the order |
| `SmallClusters.TiedVersions` | common/include/lattices/single_key_causal_lattice.hpp:52-61 | two versions with one clock whose merge depends on the order |
| `SmallClusters.DepartedNewcomer` | src/kvs/node_depart_handler.cpp:30-31 | a run in which a newcomer joins and departs before the pass: the thread is again the only one responsible and drops the key, sending it to the departed server alone |
| `SmallClusters.RaisedFactor` | src/kvs/replication_change_handler.cpp:147-151 | a run in which a factor is raised before the pass: the thread is responsible again and drops the key |
| `SmallClusters.BlankDropped` | src/kvs/utils.cpp:37-41 | a run in which a thread accepts a value that reads as missing, a newcomer becomes the only one responsible, and the pass drops the key and sends nothing |
| `SmallClusters.UnservedNewcomer` | src/kvs/node_join_handler.cpp:84-120 | a run with a departure and then a join, before any lookup, after which the newcomer is responsible and the remaining holder queues nothing for it |
| `SmallClusters.LostRequest` | src/kvs/replication_response_handler.cpp:70-179 | a run in which a request is received and, after a lookup without factors, neither answered nor held |
| `SmallClusters.LostGossip` | src/kvs/replication_response_handler.cpp:228 | a run in which gossip is kept back and, after a lookup without factors, the thread is as it was before it came, having passed nothing on |
| `SmallClusters.StrandedRequest` | src/kvs/replication_response_handler.cpp:54-66 | a run after which a request is pending and no lookup is under way |
| `SmallClusters.StalledQueue` | src/kvs/server.cpp:666-693 | for every number of keys above 50, a run in which a join queues that many for one address and makes them all due for removal |
| `SmallNets.EmptyWriteStays` | src/kvs/utils.cpp:37-41 | a run of two replicas in which one accepts a write of the empty string and has its round: nothing is under way and the other replica holds nothing |
| `SmallNets.TiedReplicas` | common/include/lattices/lww_pair_lattice.hpp:46-51 | a run of two servers that accept one write each with one timestamp: nothing is under way and each holds the other's write |

## Left out

- Sockets, polling, logging, configuration files and the wire encoding of messages: only what the messages say is modelled.
- Stores on disk, and the priority lattice with its floating-point priorities.
- The stores behind the serializers are one map from type and key to value, not an object per type.
- Departures (`node_depart_handler`, `self_depart_handler`, `depart_done_handler`) beyond their effect on the ring.
- Gossip to caches in the periodic round; the cache index itself is modelled.
- Worker threads 1 and up receiving copies of membership and factor messages from thread 0.
- The user-facing routing of requests, access statistics, storage reports and the monitoring policies.
- The requests for cached keys that follow a management response.
- Whether a quiet state is reached: gossip is periodic, and convergence is stated for the states in which nothing is under way.
- GossipConvergence.ReplicasConverge: membership and factors are fixed during the run, as the source promises nothing else.
- Handoff.JoinHandoff: states what holders queue; that the data arrives is the matter of the redistribution and gossip lemmas.
- StorageThread.StorageThread.JoinQueue: collects into local copies of the two queues, which the caller then stores; the source updates them in place.
- StorageThread.StorageThread.UserRequest: access counters and timestamps are not kept.
- Writes that time out at the monitoring node but were carried out by the storage thread.
