# CherrySim, modelled in Dafny

CherrySim simulates networks of BLE nodes that run the FruityMesh firmware. This project models the parts of the
simulator that carry its algorithms, and proves what the rest of the simulator relies on:

- **Link layer** (`PacketBuffers`, `LinkTable`, `LinkTraces`, `LinkInvariant`, `LinkRuns`, `ConnectionEvents`,
  `LinkEffects`, `LinkOutcomes`, `LinkLayer`). `LinkLayer.CherrySim` is the simulator object: tables of connection slots
  that point at each other, the GAP state and the event queue of every node, and the two global counters. Its methods are the `sd_*` calls of a
  node and the `Simulate*` steps; each is one atomic step, and `Run` performs any sequence of them. The outcome of a
  random draw (busy, received, due, lost, number of packets) is an argument of the step. A pointer to a slot is the
  pair (node, slot), a null pointer is `None`. Links are numbered 1, 2, 3, ... and the 16-bit handle is a function of
  that number, so that the wrap at 65000 is part of the model and claims by link number hold for every run. Four ghost
  fields record history: all events pushed, how many were taken, all messages queued, and the ends of every link.
  `LinkInvariant.Sound` is the invariant of every reachable state; the lemmas after it say what it means. `LinkRuns`
  drives a simulator, call by call, past the wrap of either counter, with its clocks in step and parameters a real link
  could have. `LinkOutcomes` says in numbers what the steps do, without the functions they are built from.
- **Cluster sizes** (`Forest`, `ClusterSums`, `ClusterWalk`). The recursive walk along handshaked mesh links and the
  consistency pass that starts it from every node. Sizes and counters are 16-bit and wrap.
- **AES-128, CBC and CCM** (`AesField`, `AesTables`, `AesSBox`, `Aes`, `AesStandard`, `AesModes`, `Ccm`), against
  FIPS 197, section 6.2 of NIST SP 800-38A and sections 2.2 to 2.5 of RFC 3610. The in-place steps work on arrays; each
  is proved against a function on blocks. `AesSBox` and `AesStandard` tie these functions to the text of FIPS 197.
- **DBSCAN and node placement** (`Dbscan`, `Placement`, and `Sequences`, which `Forest` uses too), over any symmetric
  "within epsilon" relation.
- **Mersenne Twister** (`Mt19937`), against the order-624 recurrence of `[rand.eng.mers]` in the ISO C++ standard, whose
  numbers `Mt19937Standard` writes out.
- **Packet statistics** (`PacketStats`), where an array of counters stands for a map of 32-bit totals.

Where the code does not do what one would expect of it, the code is modelled as it is, and the exact condition is
proved: CBC decryption inside one buffer (`AesModes.InPlaceDecryptionIsRightIff`) or over its own initial vector
(`AesModes.LostVectorIsHarmlessIff`), additional data of 0xFF00 bytes and more
(`Ccm.EncodingIsStandardIff`), tag lengths for which a key stream block can coincide with the first authenticated block
(`Ccm.FirstBlockIsCounterBlockIff`), `Multiply` with factors above 0x1f (`AesField.MultiplyIsFieldProduct`), a random number
from the full 32-bit range (`Mt19937.MersenneTwister.NextInRange`), an unreliable packet with the highest id
(`PacketBuffers.LowestExistsIff`, and `LinkRuns.StuckUntilClosed` for what becomes of it), handles after 65000 links
(`LinkInvariant.HandleNamesOnePairIff`, `LinkInvariant.HandleStoryIff`, and before a link is opened
`LinkRuns.JoinKeepsHandlesUniqueIff` and `LinkRuns.JoinKeepsStoriesIff`) and packet ids after their wrap
(`PacketBuffers.QueuedLastIff` and `LinkInvariant.TakeKeepsOrderIff`). The runs of the simulator in which handles and
order fail are `LinkRuns.HandleNamesTwoPairs`, `LinkRuns.HandleHasTwoStories` and `LinkRuns.NewerMessageOvertakes`.

## Model

| member | source | states |
|---|---|---|
| `LinkLayer.CherrySim.Run` | cherrysim/CherrySim.cpp:2473-3021 | in any sequence of calls and steps, by any nodes and with any random outcomes, each does what its own specification says, and the invariant of the links holds from the start state on; no link comes back once it is closed, and while a link is up, an unreliable packet with the highest id keeps its buffer |
| `LinkInvariant.LinksArePairs` | cherrysim/CherrySim.cpp:2614-2692 | in every reachable state an active slot has an active partner that points back, with swapped owner and peer, the opposite role and the same handle; no third slot has its link number, nor, up to 65000 links, its handle |
| `LinkInvariant.HandleNamesOnePairIff` | cherrysim/CherrySim.cpp:2572-2577 | a live handle names one pair exactly when no other live link was opened a multiple of 65000 links earlier or later |
| `LinkRuns.JoinKeepsHandlesUniqueIff` | cherrysim/CherrySim.cpp:2572-2577 | opening a link leaves every live handle naming one pair exactly when no live link holds the handle that is about to be given out |
| `LinkRuns.CutKeepsHandlesUnique` | cherrysim/CherrySim.cpp:2706-2767 | closing a link never makes a live handle ambiguous |
| `LinkRuns.HandleNamesTwoPairs` | cherrysim/CherrySim.cpp:2572-2577 | a run of the simulator, by calls of four nodes, that opens 65001 links, after which one handle names two live pairs |
| `LinkInvariant.LinkStory` | cherrysim/CherrySim.cpp:2629-2764 | in every reachable state the events pushed to a node about a link are none, or one CONNECTED and then link events, or that with one final DISCONNECTED; the second exactly while the node has the link |
| `LinkInvariant.HandleStoryIff` | cherrysim/CherrySim.cpp:2629-2764 | in every reachable state the events with a handle on a node have that shape exactly when no two links with the handle have touched the node, and then they lack the final DISCONNECTED exactly while a live link of the node has the handle |
| `LinkInvariant.HandleStory` | cherrysim/CherrySim.cpp:2629-2764 | that is so for every handle as long as no more than 65000 links were opened |
| `LinkRuns.JoinKeepsStoriesIff` | cherrysim/CherrySim.cpp:2572-2660 | opening a link keeps the events with every handle proper at both nodes exactly when neither has an event with the handle that is about to be given out |
| `LinkTraces.ProperHandleIff` | cherrysim/CherrySim.cpp:2572-2764 | in any log with proper stories by link, the story by handle is proper exactly when at most one link with the handle has events |
| `LinkRuns.HandleHasTwoStories` | cherrysim/CherrySim.cpp:2572-2577 | a run of the simulator in which two nodes open and close 65001 links, after which the events with handle 1 are no proper story |
| `LinkTraces.PhaseIsShape` | cherrysim/CherrySim.cpp:2629-2764 | the state machine that follows a link through a log accepts exactly the logs of that shape |
| `LinkInvariant.DeliveredOrBuffered` | cherrysim/CherrySim.cpp:2925-2975 | on a live link the messages queued are those that arrived and those still buffered, none lost or doubled, and before the packet id wraps they arrive in the order in which they were queued |
| `LinkInvariant.ArrivedWasQueued` | cherrysim/CherrySim.cpp:2737-2741 | on any link, live or closed, only queued messages arrive, and before the packet id wraps a prefix of them, so a disconnect drops the rest and nothing else |
| `LinkInvariant.IntentIsCovered` | cherrysim/SystemTest.cpp:529-561 | a node that advertises for a link has a spare peripheral role, a connecting one a spare central role, and both a free slot |
| `LinkLayer.CherrySim.ConnectMasterToSlave` | cherrysim/CherrySim.cpp:2569-2704 | the checks that throw cannot fail; a new pair is set up on the last free slots and both nodes get CONNECTED with the next handle |
| `LinkOutcomes.JoinOutcome` | cherrysim/CherrySim.cpp:2614-2692 | field by field: the last inactive slots of both nodes become the ends of the link and lead to each other, with an MTU of 23; no other slot and no other log changes |
| `LinkOutcomes.HandleIs` | cherrysim/CherrySim.cpp:2572-2577 | the handle of a link is a number from 1 to 65000 that differs from the link's number by a multiple of 65000 |
| `LinkInvariant.SoundJoin` | cherrysim/CherrySim.cpp:2614-2703 | opening a link between a node that advertises for one and a connecting node keeps the invariant once both intentions are cleared |
| `LinkLayer.CherrySim.DisconnectSimulatorConnection` | cherrysim/CherrySim.cpp:2706-2767 | an inactive or missing slot is refused and nothing changes; otherwise both ends go down with empty buffers and both nodes get DISCONNECTED; the null-partner exception cannot happen |
| `LinkInvariant.SoundCut` | cherrysim/CherrySim.cpp:2706-2767 | closing a link keeps the pairs, traces, roles and message accounts of all other links |
| `LinkLayer.CherrySim.SimulateAdvertising` | cherrysim/CherrySim.cpp:2473-2544 | every offered scanning node that hears the advertisement gets one report, up to the first node that is connecting to the advertiser and hears it; that one gets the link, and the advertising ends |
| `LinkLayer.CherrySim.SimulateTimeouts` | cherrysim/CherrySim.cpp:2769-2783 | an attempt past its deadline ends with one event about no link; otherwise nothing changes |
| `LinkRuns.AttemptTimesOut` | cherrysim/SystemTest.cpp:958-958 | in a run of the simulator, an attempt to connect is over 1000 * timeout ms after it was started, and not before, while times are below 2^31 |
| `LinkLayer.CherrySim.AdvStart` | cherrysim/SystemTest.cpp:529-561 | connectable advertising starts exactly when a peripheral role is spare and the SoftDevice is not busy |
| `LinkLayer.CherrySim.GapConnect` | cherrysim/SystemTest.cpp:916-966 | connecting starts exactly when the node is not connecting yet, not busy, and has a spare central role and a free slot; it stops scanning, and the interval and the timeout of the link are those asked for, in units of 1.25 ms and 10 ms |
| `LinkLayer.CherrySim.GapDisconnect` | cherrysim/SystemTest.cpp:976-986 | closes both ends of the first live link with the handle, with reason 0x16 for the node itself and 0x13 for its partner, and touches no other slot or log; or reports an invalid handle and changes nothing |
| `LinkLayer.CherrySim.FindConnectionByHandle` | cherrysim/CherrySim.cpp:4102-4109 | the first active slot with the handle |
| `LinkLayer.CherrySim.GattcWrite` | cherrysim/SystemTest.cpp:1534-1599 | which error for which reason; an accepted write fills the reliable slot or the first empty unreliable one with the next packet id |
| `LinkLayer.CherrySim.GattsHvx` | cherrysim/SystemTest.cpp:1982-2027 | the same for notifications, which have no length limit |
| `LinkOutcomes.TakeOutcome` | cherrysim/SystemTest.cpp:1580-1589 | an accepted message is buffered for the partner, a reliable write in its own slot and any other in the first empty one of seven, under the number of packets before it modulo 2^32; all other slots stay as they are |
| `LinkInvariant.SoundTake` | cherrysim/SystemTest.cpp:1580-1589 | queueing on a live link keeps the invariant, in particular the account of messages and their order |
| `PacketBuffers.FindFreePacketBuffer` | cherrysim/SystemTest.cpp:1507-1515 | the first empty unreliable slot, or none when all are full |
| `PacketBuffers.GetNextPacketToWrite` | cherrysim/CherrySim.cpp:2821-2841 | the slot the scan for the lowest id picks, the reliable one first among equals |
| `PacketBuffers.LowestIsMinimum` | cherrysim/CherrySim.cpp:2821-2841 | with distinct ids below the limit the scan finds the oldest packet, and finds one whenever there is one |
| `PacketBuffers.LowestExistsIff` | cherrysim/CherrySim.cpp:2823-2838 | the scan finds nothing exactly when all that is buffered is unreliable packets with the highest id |
| `PacketBuffers.QueuedLast` | cherrysim/CherrySim.cpp:2821-2841 | a packet with a newer id put into any free slot leaves after everything buffered: the eight slots are a first-in first-out queue |
| `PacketBuffers.QueuedLastIff` | cherrysim/CherrySim.cpp:2821-2841 | and it leaves last exactly when its id is newer than all that is buffered |
| `PacketBuffers.DrainIsContents` | cherrysim/CherrySim.cpp:2821-2841 | the queue holds exactly the packets in the slots |
| `PacketBuffers.DrainIsSorted` | cherrysim/CherrySim.cpp:2821-2841 | it is strictly sorted by id, so no packet leaves twice |
| `PacketBuffers.DrainInsert` | cherrysim/CherrySim.cpp:2821-2841 | a packet put into any free slot takes the place in the queue that its id gives it, and leaves the others in their order |
| `LinkInvariant.TakeKeepsOrderIff` | cherrysim/SystemTest.cpp:1580-1589 | wrapped or not, with ids on the slot distinct and below the highest: queueing a message keeps a link in order exactly when no other message is buffered there under a higher id |
| `LinkInvariant.TakeKeepsOtherOrders` | cherrysim/SystemTest.cpp:1580-1589 | and it never disturbs the order on any other slot |
| `LinkInvariant.SendKeepsOrder` | cherrysim/CherrySim.cpp:2925-2955 | sending the next packet keeps a link in order |
| `LinkInvariant.JoinStartsInOrder` | cherrysim/CherrySim.cpp:2614-2692 | a new link starts in order at both ends, however many packets there have been |
| `LinkRuns.NewerMessageOvertakes` | cherrysim/CherrySim.cpp:2833-2838 | for any two different WRITE_CMD messages that fit, a run of the simulator in which 2^32 - 2 packets are queued and sent in due connection events over one link, and then the second of the two overtakes the first: it has arrived, the first has not, and what has arrived is no prefix of what was queued; the packet with the highest id is stuck at the other end |
| `LinkRuns.StuckUntilClosed` | cherrysim/CherrySim.cpp:2833-2838 | a buffered unreliable packet with the highest id stays where it is through any run, for as long as its link is up |
| `LinkLayer.CherrySim.SendPackets` | cherrysim/CherrySim.cpp:2925-2985 | a prefix of the queue leaves, at most the budget and nothing after a reliable write; the receiver gets it in order, the sender its confirmations, and no other slot or log changes |
| `LinkEffects.BurstConfirms` | cherrysim/CherrySim.cpp:2843-2985 | in one connection event the TX_COMPLETE counts add up to the unreliable packets that left; at most one reliable write leaves, last, and its WRITE_RSP follows the TX_COMPLETE for everything before it |
| `ConnectionEvents.BurstShape` | cherrysim/CherrySim.cpp:2925-2981 | a burst has at most one reliable write, as its last packet, and ends early only there or with the queue |
| `ConnectionEvents.AcksConfirmAll` | cherrysim/CherrySim.cpp:2956-2985 | the confirmations of any list of packets count its unreliable ones and answer its reliable ones in order |
| `LinkLayer.CherrySim.ConnectionEvent` | cherrysim/CherrySim.cpp:2868-2985 | in numbers: before the interval has passed (7 ms counting as 10) nothing happens; when the next packet has waited for more than 30000 ms or the partner was not heard for the supervision timeout, both ends are closed with reason 8; otherwise nothing leaves for a partner out of reach, and for one within reach at most 7, 5 or 3 packets with one, two or more links, and exactly what the draw allows when it is no larger |
| `LinkOutcomes.EventOutcome` | cherrysim/CherrySim.cpp:2879-2922 | that these outcomes follow from the description of the event by cases, over every state |
| `LinkLayer.CherrySim.SimulateConnections` | cherrysim/CherrySim.cpp:2858-3021 | a blocked simulator changes nothing; otherwise a connection event, an RSSI measurement and a random loss per slot, one after the other; logs only grow, no link appears and nothing is queued |
| `LinkLayer.CherrySim.ConnParamUpdate` | cherrysim/SystemTest.cpp:1073-1238 | which error for which reason; a change sets the interval of both ends and tells both nodes, a refusal tells the peripheral the interval in force, a request is stored at the central, which is told |
| `LinkOutcomes.ParamOutcome` | cherrysim/SystemTest.cpp:1137-1238 | field by field: a change sets the interval of both ends to 5/4 of the minimum asked for and ends the request, a refusal ends it, a request waits at the central with a deadline 20 deciseconds away; nothing else changes at any slot |
| `LinkEffects.RetimeAgrees` | cherrysim/SystemTest.cpp:1137-1174 | after a change both ends of every link still have the same interval and supervision timeout |
| `LinkLayer.CherrySim.SimulateConnectionParameterUpdateRequestTimeout` | cherrysim/CherrySim.cpp:3367-3418 | exactly the pending requests past their deadline on slots of a central are dropped, each with one event to its peripheral |
| `LinkLayer.CherrySim.ResetCurrentNode` | cherrysim/CherrySim.cpp:2325-2355 | all links of the node are closed with events to both ends, its slots, state and queue start afresh, and no slot of any node leads to it |
| `LinkLayer.CherrySim.BootCurrentNode` | cherrysim/CherrySim.cpp:2249-2258 | fresh slots, state and queue for a node without links, while the history of events stays |
| `LinkOutcomes.FreshIsBlank` | cherrysim/CherrySim.cpp:2249-2258 | fresh slots are inactive, with empty buffers and all fields zero |
| `LinkLayer.CherrySim.EvtGet` | cherrysim/SystemTest.cpp:1773-1811 | a node takes the events pushed to it one by one, in order, and none twice |
| `ClusterWalk.Mesh.PropagateFrom` | cherrysim/CherrySim.cpp:3661-3667 | on every forest of links, walking from all nodes in any order sets both counters of every handshaked connection to zero and gives each node its size plus all changes pending on links toward it, each once, modulo 2^16 |
| `ClusterWalk.Mesh.CheckMeshingConsistency` | cherrysim/CherrySim.cpp:3661-3685 | after both passes both counters of every handshaked connection are zero, every size is what was predicted for it, and the nodes reported are exactly those whose size differs from the number of nodes in their component |
| `ClusterWalk.Mesh.Walk` | cherrysim/CherrySim.cpp:3722-3773 | one walk ends, keeps every node's prediction, sets to zero both counters of exactly the links it crosses away from its start and returns the number of nodes it reached |
| `ClusterWalk.Mesh.TakePending` | cherrysim/CherrySim.cpp:3695-3753 | what is pending over a bond is taken once; the sending counter at one end and the receiving one at the other become zero, each of them, and no other counter changes |
| `ClusterWalk.PredictionsHaveArrived` | cherrysim/CherrySim.cpp:3661-3667 | if predictions are kept and nothing is pending, every size is its prediction, whatever the order |
| `ClusterSums.ArriveOwes` | cherrysim/CherrySim.cpp:3735-3753 | taking a change at a node leaves all predictions as they were, except that everything beyond the node is owed the change |
| `ClusterSums.PutSettles` | cherrysim/CherrySim.cpp:3764-3765 | putting the change on a link settles the debt of exactly the nodes beyond it |
| `Forest.ComponentIsShared` | cherrysim/CherrySim.cpp:3722-3773 | the set of nodes a walk counts is the same from every node in it |
| `Forest.BoundedIffForest` | cherrysim/CherrySim.cpp:3722-3773 | walks that never turn back are bounded exactly on forests, so elsewhere the recursion has no bound |
| `Aes.InvCipherUndoesCipher` | cherrysim/aes.c:419-467 | for every key schedule and block, deciphering undoes enciphering |
| `Aes.InvRoundsMirrorRounds` | cherrysim/aes.c:427-466 | the inverse rounds undo the rounds one by one, from any round on |
| `Aes.Context.Cipher` | cherrysim/aes.c:419-442 | the in-place rounds compute the cipher of FIPS 197, section 5.1, on one block of a buffer and leave the rest alone |
| `AesStandard.CipherIs` | cherrysim/aes.c:419-442 | eleven states that follow each other as in section 5.1 of FIPS 197, ten rounds with the last one without MixColumns, lead from a block to its cipher |
| `AesStandard.AddRoundKeyIs` | cherrysim/aes.c:255-265 | round key n is the schedule from byte 16n on, added byte by byte |
| `AesStandard.SubBytesIs` | cherrysim/aes.c:268-281 | either table is applied to every byte of the block |
| `AesStandard.MixColumnsIs` | cherrysim/aes.c:318-372 | every column is multiplied by the circulant matrix of 2, 3, 1, 1, and by that of 14, 11, 13, 9 in the inverse |
| `Aes.Context.InvCipher` | cherrysim/aes.c:444-467 | the same for section 5.3 of FIPS 197 |
| `AesStandard.InvCipherIs` | cherrysim/aes.c:444-467 | the states of section 5.3 of FIPS 197 lead from a block to its decipherment |
| `Aes.Context.KeyExpansion` | cherrysim/aes.c:182-251 | the expanded words satisfy the recurrence of FIPS 197, section 5.2 |
| `AesStandard.KeyScheduleIs` | cherrysim/aes.c:182-251 | the schedule starts with the key, and every further word is the one before it XORed with the one four back, after the treatment of section 5.2 of FIPS 197 at the start of a round key |
| `AesStandard.ScheduleCoreIs` | cherrysim/aes.c:206-234 | that treatment: rotated by a byte, substituted, and the first byte XORed with 1, 2, 4, 8, 0x10, 0x20, 0x40, 0x80, 0x1b or 0x36 |
| `AesStandard.XorWordIs` | cherrysim/aes.c:240-243 | words are added byte by byte |
| `Aes.Context.MixColumns` | cherrysim/aes.c:318-331 | the in-place column pass with its saved first byte multiplies every column by the matrix of FIPS 197, section 5.1.3 |
| `Aes.Context.InvMixColumns` | cherrysim/aes.c:356-372 | the inverse pass multiplies every column by the inverse matrix |
| `Aes.MixColumnsUndone` | cherrysim/aes.c:318-372 | the two passes undo each other on every block |
| `Aes.ShiftRowsUndone` | cherrysim/aes.c:284-415 | the row rotations undo each other |
| `AesField.MixThenInvMix` | cherrysim/aes.c:318-372 | the matrix products over GF(2^8) cancel for every column |
| `AesField.MultiplyIsFieldProduct` | cherrysim/aes.c:335-342 | the five-term product is the field product for all arguments exactly when the factor is below 0x20 |
| `AesSBox.XTimeIsDoubling` | cherrysim/aes.c:312-315 | a byte times x is its double, XORed with 0x11b when that has nine bits |
| `AesTables.SBoxUndone` | cherrysim/aes.c:95-130 | the inverse table undoes the substitution table |
| `AesSBox.SBoxIsAffineInverse` | cherrysim/aes.c:95-113 | section 5.1.1 of FIPS 197: the table takes every byte with an inverse in GF(2^8) to the inverse, XORed with its rotations by 1 to 4 bits and 0x63 |
| `AesSBox.InverseExists` | cherrysim/aes.c:95-113 | every byte but 0 has such an inverse |
| `AesSBox.SBoxOfZero` | cherrysim/aes.c:95-113 | and 0 goes to 0x63 |
| `AesModes.EcbEncrypt` | cherrysim/aes.c:476-487 | a single block is expanded, copied and enciphered; the input may be the output |
| `AesModes.EcbDecrypt` | cherrysim/aes.c:489-500 | the same for deciphering |
| `AesModes.CbcRoundTrip` | cherrysim/aes.c:521-593 | CBC decryption undoes CBC encryption for any number of blocks |
| `AesModes.CbcBlock` | cherrysim/aes.c:532-541 | each ciphertext block is the cipher of its plaintext block XOR the block before, as in NIST SP 800-38A |
| `AesModes.CbcEncryptAppend` | cherrysim/aes.c:521-556 | encrypting in pieces with the carried block is encrypting the concatenation |
| `AesModes.CbcEncryptBuffer` | cherrysim/aes.c:521-556 | the output is the CBC encryption, with key and initial vector given or carried over, wherever in the buffers the vector lies; the input is overwritten with what was fed to the cipher, and the last block is carried on by pointer |
| `AesModes.CbcEncryptMore` | cherrysim/aes.c:521-556 | every further call with null key and null initial vector, on whatever buffers, carries on: with all encrypted before, it is the encryption of the concatenation |
| `AesModes.CbcDecryptBuffer` | cherrysim/aes.c:558-593 | the output is the CBC decryption when the buffers differ, and what in-place decryption yields when they are the same; what of the initial vector lies in the first output block is replaced by deciphered bytes before it is used |
| `AesModes.LostVectorIsHarmlessIff` | cherrysim/aes.c:574-578 | with the initial vector at any byte of the first output block the decryption is right exactly when the bytes that take its place are the same |
| `AesModes.CbcDecryptMore` | cherrysim/aes.c:558-593 | a further call with null key and null initial vector carries the decryption on, unless it is in place or writes over the block it chains from |
| `AesModes.InPlaceDecryptionIsRightIff` | cherrysim/aes.c:574-582 | decrypting a buffer into itself is right for all inputs exactly up to one block |
| `Ccm.Authenticate` | cherrysim/ccm_soft.c:133-158 | the buffered loop with its carried offset computes the CBC-MAC of RFC 3610, section 2.2, over the first block, the length-prefixed padded additional data and the padded message |
| `Ccm.AuthenticateBlocks` | cherrysim/ccm_soft.c:103-131 | whatever is left over in the block from before, the loop adds the padded data after it to the MAC |
| `Ccm.EncodingIsStandardIff` | cherrysim/ccm_soft.c:148-153 | the length prefix is the one of RFC 3610 exactly for lengths below 0xFF00 |
| `Ccm.FormattingInjective` | cherrysim/ccm_soft.c:133-158 | different nonces, additional data, messages or tag lengths never lead to the same authenticated blocks |
| `Ccm.Encrypt` | cherrysim/ccm_soft.c:184-212 | byte by byte, the output is the message XORed with the ciphers of the blocks made of a 1, the nonce and the block number from 1 on, and the tag the CBC-MAC of RFC 3610, section 2.2, XORed with the cipher of block 0, for separate buffers or the same one |
| `Ccm.Decrypt` | cherrysim/ccm_soft.c:214-280 | the output is the text recovered with the same key stream, and the tag passes exactly when it is the one recomputed over that text |
| `Ccm.DecryptUndoesEncrypt` | cherrysim/ccm_soft.c:184-280 | decrypting an encrypted message returns it, and the tag passes exactly when it is the message's |
| `Ccm.CryptUndone` | cherrysim/ccm_soft.c:160-182 | the counter stream applied twice cancels, for every length |
| `Ccm.CounterBlockIs` | cherrysim/ccm_soft.c:160-168 | counter block n is a 1, the 13 bytes of the nonce, and n modulo 2^16 with its high byte first |
| `Ccm.CounterCounts` | cherrysim/ccm_soft.c:166-168 | the counter that is incremented n times from 0 holds n modulo 2^16 |
| `Ccm.CounterBlocksDiffer` | cherrysim/ccm_soft.c:160-182 | the counter blocks of one message are all different |
| `Ccm.FirstBlockIsCounterBlockIff` | cherrysim/ccm_soft.c:133-168 | the first authenticated block is a counter block exactly when there is no additional data, the tag has 1 to 3 bytes, the nonces are the same and the message length is the block's number |
| `Dbscan.Dbscan` | cherrysim/dbscan.c:109-125 | two core points share an id exactly when a chain of adjacent core points links them; a border point has the id of a core neighbour; noise is exactly what is neither core nor next to a core; all ids are used, and the first point, if core, has id 0 |
| `Dbscan.Expand` | cherrysim/dbscan.c:127-165 | one new cluster or noise, with all core points labelled before kept; it ends although the list grows while it is walked |
| `Sequences.DistinctIsShort` | cherrysim/dbscan.c:153-160 | a list of different indices is no longer than the number of points, which bounds the growing seed list |
| `Dbscan.GrowingStep` | cherrysim/dbscan.c:167-205 | spreading from one seed keeps the seed list free of repetitions and the cluster connected to its root |
| `Dbscan.LabellingIsClustering` | cherrysim/dbscan.c:109-205 | a labelling that every step keeps is the clustering once no point is unclassified |
| `Placement.OneClusterIffConnected` | cherrysim/CherrySim.cpp:830-840 | with a minimum of zero points, all ids are 0 exactly when any two nodes are joined by a walk whose steps are within epsilon |
| `Placement.ConnectedIffJoined` | cherrysim/CherrySim.cpp:820-840 | two nodes are connected in the space that is clustered exactly when such a walk joins them |
| `Placement.Simulation.HelperPositionNodesRandomly` | cherrysim/CherrySim.cpp:807-842 | when it returns, any two of the nodes placed are joined by a walk of nodes within epsilon of the next, and they are where drawing new coordinates for all nodes not joined with the first one, over and over, leads to; it gives up only when the random numbers run out; nodes that were connected among themselves before are never moved, nor are nodes outside the range |
| `Placement.Simulation.PositionNodesRandomly` | cherrysim/CherrySim.cpp:845-865 | after both passes the mesh nodes are connected on their own and all nodes are connected; after the first pass the mesh nodes were connected where they are now, while the asset nodes were still where the first draws had put them; a group at the front that was drawn connected stays where it was drawn |
| `Mt19937.MersenneTwister.NextU32` | cherrysim/MersenneTwister.cpp:727-758 | for any start table the n-th number drawn is the tempered n-th term of the recurrence; it fails exactly when unseeded or disabled |
| `Mt19937.MersenneTwister.Twist` | cherrysim/MersenneTwister.cpp:42-49 | the wrap-around pass reads the right old or new word at every index: the table moves on by 624 terms |
| `Mt19937.MersenneTwister.NextInRange` | cherrysim/MersenneTwister.cpp:704-717 | the value lies between the bounds and is the next number modulo the width; only the full range divides by zero |
| `Mt19937.MersenneTwister.SetSeed` | cherrysim/MersenneTwister.cpp:60-702 | the start table is the seeding recurrence from the seed plus the process-wide offset, XORed with the constants, and the stream is left 624 numbers in |
| `Mt19937Standard.SeedingIs` | cherrysim/MersenneTwister.cpp:64-72 | a seeded word is its index plus 1812433253 times the XOR of the word before it with that word's two top bits |
| `Mt19937Standard.RecurrenceIs` | cherrysim/MersenneTwister.cpp:27-40 | term k + 624 is term k + 397 XORed with the twist of the top bit of term k and the other bits of term k + 1, in numbers |
| `Mt19937Standard.OutputIs` | cherrysim/MersenneTwister.cpp:750-757 | a number drawn is the term after four shifts, with 0x9D2C5680 and 0xEFC60000 as masks |
| `Mt19937Standard.KnownAnswer` | cherrysim/MersenneTwister.cpp:727-758 | for the start table of ISO C++ with its default seed 5489 the first number drawn is 3499211612 |
| `Mt19937.WindowDeterminesFuture` | cherrysim/MersenneTwister.cpp:42-49 | two streams that agree on 624 consecutive outputs agree forever after |
| `Mt19937.TemperInjective` | cherrysim/MersenneTwister.cpp:750-757 | tempering loses nothing |
| `PacketStats.AddPacketToStats` | cherrysim/CherrySim.cpp:4240-4263 | one total grows by the packet's count, exactly while the sum is below 2^32 and modulo 2^32 from there on; the totals of all other keys stay exactly as they were, no key gets a second slot; a packet of type 0 is not counted; it fails exactly when the key has no slot and none is unused |
| `PacketStats.SumPacketStats` | cherrysim/CherrySim.cpp:4310-4326 | every total of the summary is the sum of the nodes' totals, exactly while it is below 2^32 and modulo 2^32 from there on; it fails exactly when there are more keys than slots |
| `PacketStats.TotalIsSlot` | cherrysim/CherrySim.cpp:4240-4263 | with one slot per key, a key's slot holds its total |

## Left out

- Sockets, web server, renderer, terminal commands, JSON and file access, flash and bootloader simulation, sensors, GPIO and UART.
- The firmware (`Node`, `ConnectionManager`, `MeshConnection`): a mesh link is its partner, its handshake flag and its two pending counters, taken to be 16-bit like the local variable that collects them, because their declaration is not part of this model.
- Reception probabilities, RSSI values, battery use and positions in floating point: reception is an outcome given to the step, and distance is any symmetric relation.
- The grabbing of buffered packets and queued events into the counters (cherrysim/CherrySim.cpp:3505-3660), which reads firmware messages; the passes after it start from any counters.
- Simulator exceptions that are switched off: every enabled exception ends the call it is thrown in.
- The exception of `GenerateWrite` for unencrypted messages of type 0 and that for an overflowing reception probability: they depend on firmware and radio code.
- Encryption, service discovery, MTU exchange and transmit power calls of the SoftDevice; the MTU of a link is its default. No claim is made about encryption or a pending parameter request across the reuse of a slot.
- The configured connection counts are the same total for all nodes, at least the sum of the roles, fixed from the start and the same again after a reboot; slots beyond the total are not in the model.
- The size check of the event buffer in `sd_ble_evt_get`, global event ids and the listener.
- The payload of CONNECTED and CONN_PARAM_UPDATE beyond role, address, interval and reason; advertising data.
- Termination of the random placement loop, which is only probabilistic: the random numbers are a finite stream, and a placement that runs out of them reports so.
- Allocation failures in dbscan.c, and the parameter `minpts` as an unsigned 32-bit number: it is any natural number.
- AES-192 and AES-256, a partial last CBC block, CBC on buffers that overlap in part, and pointers into the middle of a buffer other than `Iv`.
- The 624 constants of `SetSeed`, which are any table of that size, and `NextPsrng`.
- `AddMessageToStats`, which reads firmware headers, and the printing of the statistics.
- `LinkLayer.CherrySim.ConnectMasterToSlave`: writes both slots after both searches instead of one after each search, because the searches cannot fail.
- `LinkLayer.CherrySim.GattcWrite`: does not fill the packet statistics, because they do not touch the links.
- `ClusterWalk.Mesh.CheckMeshingConsistency`: returns the set of nodes it would print about.
