# Fudpucker, modelled and proved in Dafny

Fudpucker is a peer-to-peer device store. Every device has one owner, and only the owner gives it a
new state and the next version. Copies spread as "sync" datagrams; everybody else asks for changes
with "patch" datagrams, which are passed on until they reach the owner. This project models the
client from its bytes up to a network of clients and proves what the design relies on.

| file | what it holds |
|---|---|
| `Entity.dfy` | ids, devices, peers, messages, 64-bit integers |
| `ByteSlice.dfy`, `Wire.dfy` | big-endian two's-complement integers, the datagram envelope and the payloads |
| `KeyOrder.dfy`, `Database.dfy`, `DeviceStore.dfy` | the ordered key space, prefix scans, items with attributes, devices as items |
| `MessageCache.dfy`, `PeerCache.dfy` | the quarantine of seen messages, the table of peers |
| `Protocol.dfy`, `Letters.dfy` | what each handler makes of a client's state, as functions, and what its letters say |
| `Meaning.dfy` | what requests and messages are for: the changes of store and peer table, written out |
| `Client.dfy` | the running client: the handlers as methods over database, caches and socket, each proved to do what its function in `Protocol` says |
| `Network.dfy` | clients at addresses that may restart, a bag of datagrams that may be lost, repeated and reordered, steps and runs |
| `Effects.dfy` | what every step does to stores, peer tables and the wire, written out |
| `Agreement.dfy`, `Runs.dfy` | the inductive invariant and the safety theorems over whole runs |
| `CatchUp.dfy`, `Convergence.dfy` | hailing catches up; the last sync makes copies equal; a store is the newest of what was heard |
| `Quarantine.dfy`, `Redelivery.dfy` | at-most-once handling and sending per lifetime; exactly when a message is handled again |
| `Relay.dfy`, `Twins.dfy` | who gets a message next; who gets it twice |
| `Flood.dfy`, `Rally.dfy` | the end of every flood; sync traffic that goes on under new ids |
| `Deployment.dfy` | a running client as one node of the network |

The layers are joined. The datagrams of the network are the bytes of `Wire`. Its stores are the maps
that `DeviceStore` keeps in `Database`. Its caches are those of `MessageCache`. Every handler step of
the network is one method of `Client`, whose contract says that it did what `Protocol` says, and
`Deployment.DidIsStep` shows that this is a step of the network with exactly the effects on the
client's state and on the wire. `Deployment.Serve` needs no precondition on the datagrams of a
reachable world.

## Main results

- **Effects.** What `Protocol` says is checked against what the program is for. For every kind of step,
  `Effects.StoreAfter` and `Effects.PeersAfter` give the store and the peer table of every client in
  literal terms, and nine further lemmas say what goes out, to whom and how many, or that nothing does
  (`Effects.UpdateEffect` to `Effects.NothingGoesOut`). `Effects.SentExactly` says which bytes that is.
- **Agreement.** In every reachable state, two copies of a device with the same version are the same
  copy, wherever they are stored or in flight (`Runs.EqualVersionsAgree`). Each was in its owner's
  store at some moment of the run, and the owner is never behind (`Runs.OwnerDominates`).
- **Accounting.** An owned device's version is exactly the number of updates
  (`Runs.VersionCountsUpdates`), so the version counter is safe for fewer than 2^63 updates of a
  device. That bound is the only one the theorems over runs carry, and `Runs.IncrementGrows` shows
  that it is the counter's own.
- **Convergence.** After any run, what a client holds of a device that is not its own is the newest
  copy among the syncs it has handled, in whatever order they came and whatever else happened in
  between (`Convergence.StoreIsNewestHeard`). So two clients that have handled the same copies hold
  the same copy (`Convergence.SameHearingSameCopy`). `Convergence.OrderMattersWithoutAgreement` says
  exactly when order would matter.
- **Catching up.** `CatchUp.HailCatchUp` and `CatchUp.LastSyncMakesEqual`.
- **Quarantine.** All that a client does with one message within a lifetime, dispatching it or sending
  it to any peers, belongs to one step (`Quarantine.QuarantineSpacing`, `Quarantine.OneStepPerLifetime`),
  unless it restarts in between. `Redelivery.DispatchedAgain` is exact: a message is handled if and only
  if everything the client had to do with it since it started is more than a lifetime ago.
  `Relay.RelayReaches`, `Relay.OnlyPatchesGoBack` and `Twins.OnlyTwinsGetDuplicates` say exactly who can
  be handed a message, who can get it back, and who can get it twice.
- **Traffic.** `Flood.FloodEnds` bounds all deliveries of one message id and all datagrams sent under it.
  `Rally.SyncIsAnswered` says exactly when a sync makes a client send.
- **Storage.** The flat key space refines a map of maps, with the exact condition under which
  deleting does (`Database.DeleteRefines`).

## Where the code does less than it says

- `main/data/messagecache.go:46-56`: holding a message for a peer does not renew a pair that is
  already there, not even a stale one. `MessageCache.HoldTakesEffect` gives the exact condition.
  `MessageCache.AskThenHold` shows why the receive handler is not affected. The send handler is not
  either: in every reachable world the message of a letter has no entry in the cache or one that is
  all new (`Quarantine.LettersStamped`). So the failing case of holding never arises in a run.
- Fudpucker's own README promises, in its line 4, that peers are not spammed with duplicates. For a
  lifetime of 10 seconds all sends of one message by one client belong to one step
  (`Quarantine.OneStepPerLifetime`), which sends it to each peer id once (`Quarantine.QuarantineSpacing`).
  There are two ways to a duplicate all the same.
  - Peers are told apart by id, and a client can be listed under two: a peer added by hand gets whatever
    id was typed (`main/request/handlers.go:165-180`), and a hail from the same address adds the client's own
    (`main/message/usecases.go:21-22`). A step can address one message twice to one address if and only
    if two of the peers that it picks from are listed with that address. `Twins.OnlyTwinsGetDuplicates`
    says so for every kind of step in every reachable world. `Twins.TwinsGetItTwice` is an input on
    which the same datagram leaves twice whatever is picked.
  - The peers for a patch are picked without asking the quarantine about it
    (`main/message/usecases.go:84`). A letter goes to a peer id that the quarantine already lists for its
    message if and only if it hands a relayed patch back to the patch's sender
    (`Relay.OnlyPatchesGoBack`), and this can happen whenever that sender is a known peer
    (`Relay.RelayReaches`). `Relay.PatchBounces` is an input on which nothing else can happen. The
    quarantine lists the sender named in a message and not the peer that passed it on, so that peer can
    get any relayed message back (`Relay.RelayReaches` again).
- The same line requires clients to be idempotent to received packets. They are so for 10 seconds per
  message, and not a moment longer: a message is handled again if and only if the client, since it last
  started, has neither handled nor sent it within the last 10 seconds (`Redelivery.DispatchedAgain`). In the run of
  `Redelivery.OnePatchManyUpdates` one patch, asked for once and repeated by the network, raises the
  version of its device as often as one likes.
- Line 23 of the same document says that a sync is acted on when it is newer. A sync that is not newer
  is answered with a sync under a new id, under the exact condition of `Rally.SyncIsAnswered`. Traffic
  under each id ends, but sync traffic as a whole need not: in the run of `Rally.SyncsNeedNotDieOut`
  two clients keep answering each other for as long as there are new ids, while no device changes.
- `main/data/database.go:99-117`: deleting the zero id would unlist every item
  (`Database.DeleteRefines`). That input exists at the database's own interface only: the one use case
  that deletes asks for the owner first (`main/request/usecases.go:41-57`), and for the zero id that is
  an error (`Client.Client.CheckIfOwner`).
- `main/data/usecases.go:99`: the version is incremented without a check. At the top of the 64-bit
  range it wraps (`Runs.IncrementGrows`).

## Assumptions

- A handler runs to its end before the next one starts, and the clock does not move meanwhile.
- Store reads fail only when the key is absent.
- Random ids never repeat; the zero id counts as used from the start.
- Hosts have distinct ids. Owners never drop their own devices.
- All datagrams come from clients running this program, starting from empty stores and caches. A client
  that restarts has its store, and nothing else.
- Every client's clock never goes back. Clocks of different clients are unrelated.

## Model

| member | source | states |
|---|---|---|
| ByteSlice.Int64RoundTrip | main/entity/utils/byteslice.go:17-50 | every signed 64-bit value survives encoding and decoding |
| ByteSlice.BytesRoundTrip | main/entity/utils/byteslice.go:17-50 | every 8-byte slice is the encoding of what it decodes to |
| ByteSlice.BigEndianDecodes | main/entity/utils/byteslice.go:17-21 | the big-endian digits of any number in range give the number back |
| ByteSlice.BigEndianEncodes | main/entity/utils/byteslice.go:43-50 | any digits are the big-endian form of the number they stand for, which is in range |
| ByteSlice.Int64ToBytes | main/entity/utils/byteslice.go:17-21 | the buffer filled in place holds the eight big-endian digits of the two's-complement value |
| ByteSlice.BytesToInt64 | main/entity/utils/byteslice.go:43-50 | empty reads as zero, eight bytes as the value they encode, anything after them is ignored |
| Wire.EnvelopeDecodes | main/message/adapters.go:92-98 | decoding an encoded message gives it back |
| Wire.EnvelopeReencodes | main/message/adapters.go:22-55 | exactly the buffers of 33 bytes or more decode, and re-encoding gives the identical bytes |
| Wire.PatchDecodes | main/message/adapters.go:131-158 | a patch payload decodes to the device id and state it was made from |
| Wire.SyncDecodes | main/message/adapters.go:164-202 | a sync payload decodes to the device it was made from, for every id, type, state and version |
| Wire.SyncReencodes | main/message/adapters.go:170-198 | a 42-byte sync payload holds nothing but the device it decodes to |
| Wire.PeerDecodes | main/message/adapters.go:208-235 | a peer payload decodes to the peer it was made from |
| Wire.WriteEnvelope | main/message/adapters.go:92-98 | the written buffer decodes to the message; data and signature are its two halves |
| Wire.ReadPatch | main/message/adapters.go:145-158 | the reader returns the id and state, or an error when fewer than 17 bytes are there |
| Wire.ReadSync | main/message/adapters.go:181-202 | the reader returns the device, an error on a short header, a panic on a 1 to 7 byte version |
| Wire.ReadPeer | main/message/adapters.go:222-236 | the reader returns id and address, or an error when the id is cut short |
| ByteSlice.Int64Digits | main/entity/utils/byteslice.go:17-21 | the byte at each place is the base-256 digit of that weight in the two's complement, most significant first |
| Wire.EnvelopeLayout | main/message/adapters.go:92-98 | id in bytes 0 to 15, type in 16, sender in 17 to 32, payload after that |
| Wire.PatchLayout | main/message/adapters.go:131-143 | a patch is the device id and the state |
| Wire.SyncLayout | main/message/adapters.go:164-179 | a sync is id, owner, type, state and the eight bytes of the version |
| Wire.PeerLayout | main/message/adapters.go:208-220 | a peer message is the id and the address |
| KeyOrder.PrefixConvex | main/data/database.go:157 | between a prefix and a key that has it, every key has it |
| KeyOrder.ScanComplete | main/data/database.go:157 | seeking to a prefix and stepping while it matches visits all keys with it and no other |
| Database.ScanLists | main/data/database.go:39-61 | a scan under the zero id returns exactly the ids of the live items |
| Database.ScanReads | main/data/database.go:39-61 | a scan under an item returns exactly its attributes, and nothing for an unknown item |
| Database.ScanBelowIndex | main/data/database.go:150-168 | asking the zero id for an attribute finds nothing |
| Database.AttributeRefines | main/data/database.go:83-90 | writing one attribute key refines updating one attribute of one item |
| Database.IndexRefines | main/data/database.go:74-81 | writing the index key refines making the item live |
| Database.WriteListing | main/data/database.go:74-90 | an attribute write disturbs the listing if and only if it is made under the zero id for a name that is no item |
| Database.DeleteRefines | main/data/database.go:96-117 | deletion removes that item and nothing else if and only if the id is not zero or the store is empty |
| Database.Database.CopyAllAttributes | main/data/database.go:150-171 | the iterator loop collects exactly the 16-byte suffixes of the keys with the prefix |
| Database.Database.Get | main/data/database.go:36-61 | the four lookup modes answer as a map from item to attribute map does |
| Database.Database.Set | main/data/database.go:63-94 | the given attributes are merged into that item, which becomes live; nothing else changes |
| Database.Database.Delete | main/data/database.go:96-117 | exactly that item is gone |
| DeviceStore.PatchedAttributes | main/data/adapters.go:117-126 | a state patch changes state and version and keeps type and owner |
| DeviceStore.AttributesInjective | main/data/adapters.go:102-115 | the four attributes determine the device |
| DeviceStore.DeviceStore.GetDeviceIds | main/data/adapters.go:9-26 | every stored device is listed once |
| DeviceStore.DeviceStore.GetOwner | main/data/adapters.go:28-41 | the stored owner, or an error for an unknown device |
| DeviceStore.DeviceStore.GetVersion | main/data/adapters.go:43-56 | the stored version, an error for an unknown device, version 0 for the zero id |
| DeviceStore.DeviceStore.GetDevice | main/data/adapters.go:58-100 | reads back the stored device unless it is of the unknown type |
| DeviceStore.DeviceStore.Assemble | main/data/adapters.go:66-97 | the loop over attributes rebuilds the device in whatever order they come |
| DeviceStore.DeviceStore.CreateDevice | main/data/adapters.go:102-115 | the device replaces whatever was stored under its id; all others stay |
| DeviceStore.DeviceStore.PatchState | main/data/adapters.go:117-126 | state and version of that device change and nothing else |
| MessageCache.KnownMeans | main/data/messagecache.go:40-44 | a message is known if and only if one of its deadlines is not before now |
| MessageCache.SweepInvisible | main/data/messagecache.go:62-74 | sweeping changes no later answer and leaves no empty entry |
| MessageCache.HoldTakesEffect | main/data/messagecache.go:46-56 | holding makes the pair known if and only if no stale pair is in the way |
| MessageCache.AskThenHold | main/message/adapters.go:40-57 | asked first, an unknown message is known for exactly one lifetime after it is held |
| MessageCache.AnswersAgree | main/data/messagecache.go:29-74 | over every operation sequence, resets included, the swept nested map answers as a flat set of timed records |
| MessageCache.MessageCache.ClearOutdated | main/data/messagecache.go:62-74 | the deleting double loop leaves exactly the unexpired pairs |
| MessageCache.MessageCache.ContainsMessageForPeer | main/data/messagecache.go:29-38 | true if and only if the pair's deadline is after the second clock reading |
| MessageCache.MessageCache.ContainsMessage | main/data/messagecache.go:40-44 | true if and only if the unswept cache has an unexpired pair for the message |
| MessageCache.MessageCache.Hold | main/data/messagecache.go:46-56 | adds the pair with a full lifetime unless it is there already |
| PeerCache.PeerCache.AddPeer | main/data/peercache.go:29-31 | the peer is stored under its own id |
| PeerCache.PeerCache.GetPeer | main/data/peercache.go:33-39 | the peer stored under that id, or an error exactly when there is none |
| PeerCache.PeerCache.RemovePeer | main/data/peercache.go:41-43 | that id is gone and nothing else |
| PeerCache.PeerCache.GetAllPeers | main/data/peercache.go:45-53 | every peer once, with pairwise distinct ids |
| Letters.BatchTells | main/message/usecases.go:29-37 | a batch of syncs tells nothing but stored readable devices, each under its own drawn id |
| Letters.BatchCovers | main/message/usecases.go:212-219 | no listed readable device is left out of a batch |
| Letters.DispatchGood | main/message/adapters.go:59-77 | what a handler sends is either its own making, true of its store, or at most five copies of the received message; no message goes to one peer twice |
| Letters.SendHailGood | main/message/usecases.go:196-229 | the same for a hail with its syncs to every picked peer |
| Letters.PatchStateGood | main/data/usecases.go:87-119 | the same for a local state change |
| Letters.PickTakesAll | main/data/usecases.go:146-177 | a pick that wants at least as many peers as are safe leaves none out |
| Letters.FarewellReachesAll | main/message/usecases.go:238-253 | a farewell is addressed to every known peer |
| Network.ReceiveMeans | main/message/adapters.go:22-83 | a datagram is dispatched, and put in quarantine, if and only if its id was not in quarantine; otherwise the cache is merely swept |
| Network.DatagramsMean | main/message/adapters.go:92-105 | whatever is put in flight decodes to one of the letters |
| Network.DatagramsExact | main/message/adapters.go:92-108 | one datagram per letter that could be sent, in order, from this client to the peer's address |
| Meaning.RequestStores | main/data/usecases.go:87-119 | a local request changes exactly one's own readable device, to the state asked for and the next version |
| Meaning.PatchStores | main/message/usecases.go:64-82 | the same of a received patch |
| Meaning.SyncStores | main/message/usecases.go:108-138 | a received sync replaces a foreign device unless the copy at hand is as new |
| Meaning.HandlingPeers | main/message/usecases.go:20-185 | a hail adds its sender, a peer message its sender and whom it describes, a farewell removes its sender; no other message touches the peer table |
| Effects.StoreAfter | main/data/usecases.go:14-119 | every client's store after every step: a new device as asked for with version 0, a changed state, a newer copy, and otherwise the old store |
| Effects.PeersAfter | main/message/usecases.go:20-185 | every client's peer table after every step: changed by hails, peer messages, farewells, peers added by hand and restarts, and by nothing else |
| Effects.RestAfter | main/lib.go:58-146 | names never change, clocks move with time only, a restart empties the cache |
| Effects.UpdateIsRequested | main/data/usecases.go:88-99 | a step updates a device if and only if its owner, who can read it, is asked to |
| Effects.UpdateEffect | main/message/usecases.go:71-91 | the owner stores exactly the state asked for with the next version, and tells up to five peers just that |
| Effects.RequestEffect | main/data/usecases.go:90-116 | who is not the owner changes nothing and sends up to five peers a patch for exactly that device and state, or passes on the one it got |
| Effects.SyncEffect | main/message/usecases.go:115-148 | a newer sync is saved and passed on, not to its sender; one that is not newer is answered with one's own copy |
| Effects.HailEffect | main/message/usecases.go:20-37 | the sender of a hail enters the peer table at the address it came from and gets exactly one sync per readable device |
| Effects.JoinEffect | main/message/usecases.go:196-229 | up to five peers get the hail and exactly one sync per readable device each |
| Effects.LeaveEffect | main/message/usecases.go:238-253 | every peer gets the farewell once, and nothing else goes out |
| Effects.NothingGoesOut | main/message/usecases.go:115-131 | in all other cases nothing is sent |
| Effects.SentExactly | main/message/adapters.go:92-108 | the datagrams in flight after a step, byte by byte, with sender and receiver address |
| Effects.EntryStays | main/data/peercache.go:29-43 | a step leaves a peer table entry alone unless it is about that id or a restart |
| Effects.HailedStays | main/message/usecases.go:20-22 | over a run, who has hailed stays listed at that address, and who has said farewell stays out, until something else touches that id |
| Agreement.DispatchSaves | main/message/usecases.go:55-151 | a received message makes a client save a bumped version of its own device or a newer copy of a foreign one, nothing else |
| Agreement.OutcomeSaves | main/data/usecases.go:9-119 | the same for every step, adding the client's own new devices |
| Agreement.CopyIsForeign | main/message/usecases.go:115-119 | a copy that gets past the owner check never claims to be one's own |
| Agreement.StepInv | main/message/usecases.go:55-151 | every step of the network keeps the agreement invariant |
| Runs.UpdateIsBump | main/message/usecases.go:71-82 | a device gets its next version exactly in local PATCH steps at the owner and in patches dispatched to the owner |
| Runs.StepCounts | main/data/usecases.go:97-105 | a device's history grows by one with every such update and with nothing else |
| Runs.RunInv | main/message/usecases.go:64-151 | agreement and accounting hold after every run in which no version counter is exhausted |
| Runs.EqualVersionsAgree | main/message/usecases.go:108-138 | equal versions mean equal contents everywhere, stored or in flight |
| Runs.OwnerDominates | main/message/usecases.go:115-138 | every copy was in its owner's store at some moment of the run, and the owner has the latest |
| Runs.VersionCountsUpdates | main/message/usecases.go:71-82 | an owned device's version is the number of updates in the run |
| Runs.IncrementGrows | main/data/usecases.go:99 | the incremented version is higher if and only if the counter is not at its top |
| Runs.EveryDatagramReads | main/message/adapters.go:145-202 | no datagram in flight makes a reader fail or panic, and no sync names the zero id |
| Runs.RunNoneOlder | main/message/usecases.go:121-138 | over any run no client loses a device or goes back in version |
| Convergence.SaveDeviceAbsorbs | main/message/usecases.go:108-138 | handling a sync changes the store by absorbing that copy |
| Convergence.FoldIsNewest | main/message/usecases.go:115-138 | any sequence of agreeing syncs leaves one's own devices and the newest copy of every other |
| Convergence.OrderIrrelevant | main/message/usecases.go:115-138 | any permutation or duplication of agreeing syncs yields the same store |
| Convergence.OrderMattersWithoutAgreement | main/message/usecases.go:121-138 | two foreign copies commute unless they differ at one version that the store does not have yet |
| Convergence.PendingCopiesCommute | main/message/usecases.go:115-138 | a store that absorbs the copies around in a reachable state does not depend on their order and gets the newest of each |
| Convergence.ForeignWasHeard | main/message/usecases.go:108-138 | a foreign copy held at the end of a run was there from the start or came with a sync handled on the way |
| Convergence.StoreIsNewestHeard | main/message/usecases.go:97-151 | after any run a client holds, of a device not its own, exactly the newest copy among the syncs it has handled, and none if there was none |
| Convergence.SameHearingSameCopy | main/message/usecases.go:97-151 | two clients that have handled the same copies of a device neither owns end the run with the same copy, or with none |
| CatchUp.SaluteCovers | main/message/usecases.go:20-37 | a salute tells the hailing client every readable device as it is then |
| CatchUp.StepCatchesUp | main/message/usecases.go:108-138 | after handling a sync the client is not behind it, whether it owns the device or not |
| CatchUp.HailCatchUp | main/message/usecases.go:20-52 | once a salute is handled the joiner stays at least as far as the replier was |
| CatchUp.LastSyncMakesEqual | main/message/usecases.go:108-138 | who has handled a sync of the owner's last version ends up with the owner's copy |
| Quarantine.OutcomeCache | main/message/adapters.go:40-57 | until it sends, a handler only sweeps the cache, and puts in a message it dispatches |
| Quarantine.StepLog | main/message/adapters.go:40-105 | every step keeps all unexpired events in quarantine and repeated events spaced |
| Quarantine.LettersStamped | main/message/adapters.go:92-105 | when a letter is sent, its message has no entry in the cache or one made in this very step, and was not in quarantine before |
| Quarantine.QuarantineSpacing | main/data/messagecache.go:23-74 | any two things a client did with one message since it started, to whatever peers, are at one moment or more than 10 seconds apart; at one moment it is dispatched once and sent to each peer id once |
| Quarantine.OneStepPerLifetime | main/message/adapters.go:40-108 | whatever a further step does with a message is more than 10 seconds after all that was done with it before |
| Quarantine.DispatchesApart | main/message/usecases.go:71-82 | two steps of a run in which one client acts on one message are more than 10 seconds apart, unless it restarts in between |
| Redelivery.StepFromLog | main/data/messagecache.go:46-56 | every step keeps each deadline in a cache one lifetime after a dispatch or send at that client |
| Redelivery.DispatchedAgain | main/message/adapters.go:40-57 | a datagram is dispatched if and only if every dispatch and send of its message at that client is more than a lifetime ago |
| Redelivery.DueAgain | main/message/usecases.go:71-82 | a repeated patch is applied once more as soon as a lifetime has passed |
| Redelivery.OnePatchManyUpdates | main/message/usecases.go:64-94 | from scratch, one patch asked for once is dispatched and applied any number of times |
| Relay.RelayReaches | main/message/usecases.go:84-148 | a received message can be handed on to exactly these: any listed peer for a patch of a foreign device, any but its sender for a newer sync, nobody otherwise |
| Relay.OnlyPatchesGoBack | main/message/usecases.go:84-91 | in any step a letter goes to a peer already in quarantine for its message if and only if a relayed patch returns to its sender |
| Relay.PatchBounces | main/message/usecases.go:84-91 | a client whose only peer is the sender of a foreign patch sends it right back |
| Relay.RelayAvoidsSender | main/message/usecases.go:140-148 | a newer sync is relayed only to peers not yet served and never to the sender it names |
| Twins.OnlyTwinsGetDuplicates | main/data/usecases.go:131-178 | for every kind of step in every reachable world, one message can be addressed twice to one address if and only if two of the peers picked from are listed with it |
| Twins.TwinsGetItTwice | main/data/usecases.go:146-175 | a client with one other under two ids in its table sends that one the same datagram twice whenever it updates its own device |
| Flood.StepTraffic | main/data/usecases.go:154-163 | what a step sends under an id is at most five datagrams for the client that sees the message for the first time |
| Flood.StepMeasure | main/message/adapters.go:40-57 | five times the clients yet to see a message plus its datagrams falls with every delivery and never rises |
| Flood.FloodEnds | main/message/usecases.go:84-91 | while nobody forgets a message and the network does not repeat it, its deliveries are bounded by that measure, and the datagrams sent under it by five per client yet to see it |
| Rally.SyncIsAnswered | main/message/usecases.go:115-148 | exactly when a dispatched sync makes a client send; when it is not newer, what goes out is the client's own copy under a new id |
| Rally.Return | main/message/usecases.go:123-148 | of two clients that know only each other, the one that gets a sync of the copy both have answers it, and the answer is on its way back |
| Rally.SyncsNeedNotDieOut | main/message/usecases.go:123-148 | from scratch, for every list of new ids there is a run that goes on for as many deliveries and leaves a sync in flight, though no device changes |
| Client.Client.CheckIfOwner | main/data/usecases.go:29-43 | true if and only if the stored owner is this host; an error for an unknown device |
| Client.Client.CheckIfNewer | main/data/usecases.go:45-56 | true if and only if the version exceeds the stored one; an error for an unknown device; the zero id counts as version 0 |
| Client.Client.GetRandomPeers | main/data/usecases.go:131-178 | exactly min(safe, wanted) peers, pairwise distinct and all unquarantined |
| Client.Client.SendMessage | main/message/adapters.go:92-108 | an accepted datagram is on the wire and its message in quarantine for the peer; a refused one changes nothing |
| Client.Client.Shutdown | main/request/usecases.go:28-39 | empties the peer table and the cache and leaves the store, as the restart step of the network |
| Client.Client.CreateDevice | main/data/usecases.go:14-26 | stores exactly the device asked for, with version 0, under the new id it returns, and takes the creation step of the protocol |
| Client.Client.PatchState | main/data/usecases.go:87-119 | changes exactly one's own readable device, to the state asked for, and takes the local patch step of the protocol |
| Client.Client.SaveState | main/message/usecases.go:64-94 | changes exactly one's own readable device, to the state in the patch, and takes the protocol's step for it |
| Client.Client.SaveDevice | main/message/usecases.go:108-151 | saves the copy unless the device is one's own or as new, and takes the protocol's step for it |
| Client.Client.SaluteOnHail | main/message/usecases.go:20-52 | adds the sender to the peer table, and takes the protocol's step for a hail |
| Client.Client.SavePeer | main/message/usecases.go:159-172 | adds the sender and the described peer, and takes the protocol's step for it |
| Client.Client.DeletePeer | main/message/usecases.go:178-184 | removes the sender from the peer table and changes nothing else |
| Client.Client.SendHail | main/message/usecases.go:196-229 | takes the hail step of the protocol, leaving store and peer table alone |
| Client.Client.SendFarewell | main/message/usecases.go:238-253 | takes the farewell step of the protocol, leaving store and peer table alone |
| Deployment.DidIsStep | main/lib.go:38-146 | a client method that did what the specification says, with unused ids, took an enabled step of the network with exactly that effect |
| Deployment.Serve | main/message/adapters.go:22-84 | handing a client a datagram of a reachable world delivers it; the receive handler's precondition always holds there |
| Client.Client.ReceiveMessage | main/message/adapters.go:22-84 | takes the protocol's step for any received bytes, short ones included |

## Left out

- Database.Database.Set: requires a non-zero id and no zero attribute name; `Database.WriteListing` shows what the zero id would do.
- Database.Database.Delete: requires a non-zero id; `Database.DeleteRefines` states the whole truth for the table.
- DeviceStore.DeviceStore.GetDevice: requires a non-zero id; under the zero id the program scans the list of device ids instead of attributes.
- DeviceStore.DeviceStore.CreateDevice: requires a non-zero id; storing a device under the zero id would disturb the listing, as `Database.WriteListing` shows.
- DeviceStore.DeviceStore.PatchState: requires a stored device; for an unknown id the program writes an item of two attributes that is no device, but no use case calls it so.
- Client.Client.SaveDevice: requires a sync that does not panic the reader and does not name the zero id; no datagram of the network does either, see `Runs.EveryDatagramReads`.
- Client.Client.ReceiveMessage: requires that a sync payload does not panic the reader and does not name the zero id; `Runs.EveryDatagramReads` discharges this for all datagrams of the network, and `Deployment.Serve` uses it.
- ByteSlice.BytesToInt64: slices of one to seven bytes, on which Go panics, are excluded; `Wire.ReadSync` reports them as a panic.
- Interleaving of handlers: the program takes no locks, so two handlers at work at once could lose an update.
- The clock moving within a handler: the cache operations are proved for separate readings, the handlers for one reading per step.
- Device deletion in the network: the use case refuses to delete one's own devices and deletes those of others, the opposite of its comment.
- Sockets, timeouts and the read loop: sending may succeed or fail at will.
- The HTTP interface, JSON, logging, the entry point.
- Host id, network interfaces and SHA-1 ids: fixed values; the attribute ids are the version-5 UUIDs of their names.
- Badger itself: an ordered map of byte keys with atomic updates stands for it.
- The broadcast branch of peer selection: it needs an error and an address at once, and no provider returns both.
- Random peers of the peer table, boolean conversions, events: unused.
- Sending peer messages: no wired use case does; receiving them is modelled.
- Signatures: their length is zero in the program.
