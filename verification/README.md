# A verified model of Tuna's metering, multiplexing and provider selection

Tuna tunnels TCP and UDP traffic of an *entry* (usually the paying side) through an *exit* (usually the providing
side). The entry pays per MiB with nano-payments while the traffic runs; the exit closes a session that falls behind.
This project models the parts of that system where arithmetic, concurrency or mutable state make it hard to see what
holds, and proves what does hold, for every input and every interleaving of the modelled steps. Where a property one
would expect is false of the code, there is a lemma with a concrete input or run, and a lemma saying exactly when it
holds.

Check everything with `dafny verify dfyconfig.toml` (Dafny 4.11).

| file | what it models |
|---|---|
| `billing.dfy` | truncating prices, 64-bit cost arithmetic, the ledger of payment increments and its rounding drift |
| `payer.dfy` | the payment loop of the paying side |
| `provider.dfy` | total cost from per-service counters, credit for payments, the cut-off decision |
| `tunnel.dfy` | the byte pump and two pumps with a FIFO stream between them |
| `datagrams.dfy` | the datagrams of one direction of a session: counted at both ends, lost and duplicated in between |
| `session.dfy` | payer, provider, pumps, datagrams, payment stream, delayed sampling and cut-off as one step system |
| `refinement.dfy` | that step system and the payment loop match each other round by round, and its totals are the meter's, in 64-bit arithmetic |
| `timing.dfy` | sessions whose provider samples, publishes, checks and judges on time |
| `cutoff.dfy` | whole sessions that are cut off although the payer has paid: by rounding, or by lost or duplicated datagrams |
| `framing.dfy` | length-prefixed messages over a chunked byte stream |
| `handshake.dfy` | the connection handshake and the stored encryption keys |
| `rendezvous.dfy` | the UDP reader waiting for TCP handshakes, and the codec table of the UDP socket |
| `udpmux.dfy` | many UDP clients and services over one flow, with two address caches |
| `workpool.dfy` | measuring nodes with a worker pool, sorting and truncating the result |
| `sampling.dfy` | the search for subscribers that changes its index and its bound while running |
| `avoid.dfy`, `favorites.dfy` | the measurement storage: nodes to avoid by subnet, bounded favourites |
| `favorite_races.dfy` | adds to the favourites that overlap |
| `geo.dfy` | the IP filter with caching rules and a skipped lookup |
| `linger.dfy` | closing a node while connections are pumped |
| `machine.dfy`, `tallies.dfy`, `wrappers.dfy` | integer arithmetic, counting over sequences, Option and Result |

Code that changes state is modelled by classes and loops (the payment loop, the session meter, the provider's account,
the pump, stream framing, the handshake's key store, the codec table, both UDP address caches, the sampling loop, the
storages, the filter). Each of their operations is proved against a specification function, which the step systems and
the lemmas share; plain setters and accessors have no row below.
Concurrent protocols are step systems: `Legal` runs are all interleavings of enabled steps, `Play` is the state reached.

## What came out against expectation

- The provider's count of entry-to-exit bytes *can* exceed the payer's (and the payer's exit-to-entry count the
  provider's): the pump writes first and adds to its counter afterwards, and the other side may read, write and count
  in between (`Tunnel.DownstreamCanOvertake`). `Tunnel.DownstreamBehind` gives the exact condition; the conservation
  law with the uncounted write included holds always (`Tunnel.ChainAccounting`, `Session.SidesAgree`).
- Datagrams are billed through the same counters, and they can be lost or arrive twice (`Session.SidesAgree`). A payer that
  has paid for everything it counted covers the provider's present total if and only if no more exit-to-entry bytes were
  lost or are under way than arrived twice or are uncounted, and the other way round for entry-to-exit bytes
  (`Session.CoverageIff`). There is a session in which 33 datagrams to the payer are lost, it never has anything left to
  pay, and it is cut off (`CutOff.LostDatagramsCutOff`); likewise if 33 datagrams from it arrive twice
  (`CutOff.DoubledDatagramsCutOff`).
- 18 base units per increment is the least bound that makes rounding harmless (`CutOff.HarmlessIff`): there is a session
  that pays for all its traffic in increments of 17 and 18 units and is cut off by a provider that does everything on
  time (`CutOff.SeventeenIsCutOff`).
- A handshake that asks for an unsupported algorithm is refused only after its key has been stored and announced, so its
  client can go on to announce the key over UDP and be served (`Rendezvous.RefusedClientIsServed`). Packets stem from
  completed handshakes if and only if no client asks for such an algorithm (`Rendezvous.OnlyCompletedServedIff`).
- The codec of a UDP address uses the algorithm that the announcement names, whatever the TCP handshake agreed; none is
  possible too. `Rendezvous.AlwaysSealedIff` says when packets are sealed as agreed.
- Acceptance of a favourite depends on map iteration order when a stored bandwidth is zero, because zero also means
  "nothing seen yet" (`Favorites.OrderFreeIff`); one add can go over the bound of 8 when nothing expires before
  `MaxInt32` (`Favorites.BoundKeptIff`).
- Workers that measure bandwidth add favourites concurrently. Two adds that read the length, or chose the same entry to
  evict, before either stores make the store outgrow 8, and repeated overlaps without limit
  (`FavoriteRaces.OverlapsGrowWithoutLimit`). The growth is at most the number of overlapped adds
  (`FavoriteRaces.SizeIsBounded`), and the bound is safe if and only if at most one add is under way at a time
  (`FavoriteRaces.SafeIff`).
- A node to avoid that is filed under a key other than its IP goes under the wrong key if its bucket is new
  (`Avoid.ForeignKeyMisfiles`, `Avoid.AlwaysRefinesIff`). The constant named `avoidCIDRMinIP` is 3, but a subnet needs more than 3 addresses.
- For an empty address, skipping the location lookup changes the filter's verdict unless the allow list has no
  non-empty rule (`Geo.EmptyAddressVerdicts`).
- One unencrypted UDP announcement of a key that nobody has handshaken stops the UDP reader at once, for all clients, until
  a TCP handshake of that name comes (`Rendezvous.StrangerStopsReader`). So does a second announcement, from another
  address, of a key that was handshaken once (`Rendezvous.AnnouncedTwiceWaits`, `Rendezvous.SecondAnnouncementBlocks`).
  A reader waiting for a name handshaken at most once can go on if and only if it has not passed that handshake yet
  (`Rendezvous.CanPassIff`).
- With no workers the delay measurement never finishes (`WorkPool.NoWorkersNoEnd`).
- Two UDP clients (or sockets) sharing a source port can get each other's replies (`UdpMux.SharedPortMixesReplies`);
  replies are safe if and only if no request shares the source port of one that has a service
  (`UdpMux.RepliesAreSafeIff`).

## Model

| member | source | states |
|---|---|---|
| Billing.CostMeans | tuna.go:1262 | the cost is price times bytes per 2^20 bytes, rounded down in each direction for itself |
| Billing.MachineCostExact | tuna.go:1262 | the 64-bit cost of unpaid bytes is the intended truncated cost if and only if neither price-times-bytes product reaches 2^63 |
| Billing.ChargeSplit | tuna.go:1262 | charging two amounts apart loses at most one base unit against charging them together |
| Billing.ExactDrift | tuna.go:1260-1309 | cost of all paid bytes at once = sum of the increments + the whole units among the discarded remainders, per direction |
| Billing.DriftBound | tuna.go:1260-1309 | after k payments, sum of increments <= one-shot cost <= sum + 2(k-1) |
| Billing.SharpDrift | tuna.go:1260-1309 | the exact bound for k payments: the shortfall is at most 2 * ((2^20 - 1) k / 2^20), which is 2(k-1) up to k = 2^20 |
| Billing.DriftBoundAttained | tuna.go:1260-1309 | for every k some k payments, no two in a row alike, fall short by exactly that much |
| Billing.BilledOnce | tuna.go:1307-1309 | each byte position is in exactly one bill if paid, in none otherwise |
| Billing.LedgerPrefix | tuna.go:1300-1309 | the payments up to any point are an exact ledger of the bytes they cover, and claim no more than all of them |
| Billing.CoverageNineTenths | tuna.go:1260-1309 | increments of at least 18 units add up to at least 90% of the one-shot cost |
| Billing.ThresholdRoundCost | tuna.go:1252-1262 | more than 32 MiB unpaid cost at least 31 units when both prices are at least 1 |
| Payer.PaymentLoop.StartPayment | tuna.go:1230-1312 | the nested loops leave exactly the state of the round-by-round specification over the same observations |
| Payer.PaymentLoop.AwaitDue | tuna.go:1245-1258 | the polling loop ends at the first wake-up that is due, closed, or the end of the observations |
| Payer.PaymentLoop.BillTraffic | tuna.go:1260-1310 | one round: skip, fail, stop, or pay and advance the paid counters |
| Payer.PaymentLoop.PayCost | tuna.go:1266-1310 | its part that talks to the provider and the wallet, for each way that can turn out |
| Payer.StepPaysOrKeeps | tuna.go:1244-1311 | a wake-up either keeps paid counters, ledger and last cost, or bills exactly the unpaid ranges with a positive cost different from the last |
| Payer.NothingPayable | tuna.go:1244-1276 | a wake-up at which nothing is payable changes neither channel nor fee nor ledger, and only the close flag stops the loop |
| Payer.PayableWake | tuna.go:1278-1310 | a payable wake-up: without a channel none is held afterwards and the loop goes on; with one, exactly if fee and sending work out one bill goes to the address, else the loop stops |
| Payer.EveryBillHasChannel | tuna.go:1278-1305 | in every run each bill goes to an address for which, at a wake-up up to then at which a payment to it was due, a channel could be created, and carries a fee that was given or could be computed |
| Payer.NoChannelNoPayment | tuna.go:1278-1298 | if no channel could ever be created, or no fee be computed, nothing is ever paid |
| Payer.NextPaymentNeedsNothing | tuna.go:1278-1286 | after a payment to an address, the next payable wake-up, if it is for that address, needs no new channel and no new fee |
| Payer.RunKeepsInv | tuna.go:1244-1311 | in every run paid <= used in both directions and the ledger tiles the paid bytes |
| Payer.NoUnsignedWrap | tuna.go:1252-1262 | then no unsigned subtraction wraps, and the trigger compares the true number of unpaid bytes with 32 MiB |
| Payer.RunAccounting | tuna.go:1230-1312 | whole runs: drift bound, consecutive increments differ and are positive, every paid byte billed once and no other |
| Payer.ThresholdPays | tuna.go:1252-1309 | a payment entered by the threshold, not by the timer, carries at least 31 units |
| Payer.ThresholdRunCosts | tuna.go:1244-1311 | in a run where the timer never fires, every increment is at least 31 units |
| Provider.SessionMeter.GetTotalCost | exit.go:164-185 | the loop over 256 services returns the 64-bit totals of the specification |
| Provider.MachineTotalExact | exit.go:164-185 | the 64-bit totals equal the unbounded ones as long as each priced product and the sum of bytes fit |
| Provider.SkippingIdleIsHarmless | exit.go:166-183 | looking prices up and skipping idle services give the sums over the price table itself, each priced service at its own price |
| Provider.UnpricedAddNothing | exit.go:172-180 | services beyond the table or without a price add neither cost nor bytes |
| Provider.TwoServicesTotal | exit.go:164-185 | two priced services in use add up, each at its own table entry |
| Provider.TotalsMonotone | exit.go:164-185 | total cost and total bytes are monotone in every counter |
| Provider.CostNeedsBytes | exit.go:164-185 | a positive total cost comes with a positive total of bytes, so the cut-off's division is defined |
| Provider.TotalBelowOneShot | exit.go:164-185 | with one price, summing per service never exceeds billing all traffic at once |
| Provider.SingleServiceTotal | exit.go:164-185 | with one priced service in use the totals are the plain cost, at its own table entry, and bytes of its two counters |
| Provider.ReverseTotalBelowOneShot | entry.go:244-261 | the same bound for the reverse entry, with its two TCP counters added |
| Provider.ReverseTotalDrift | entry.go:244-261 | it falls short by at most two units a service, and counts all bytes |
| Provider.ClosesRule | tuna.go:1734 | the truncating cut-off test without its divisions: short of 90% by a whole unit, and more than one MiB's share unpaid |
| Provider.CreditBelowShare | tuna.go:1777 | credited bytes never exceed the exact proportional share, and equal it iff no bytes or no remainder |
| Provider.CreditTriggersNoLater | tuna.go:1719-1729 | whenever exact proportional accounting sees more than 32 MiB unpaid, the truncated credit does too |
| Provider.CoveredSampleNeverCloses | tuna.go:1718-1740 | a sample whose bytes are paid in increments of at least 18 units does not close the session |
| Provider.LeanLedgerOk | tuna.go:1260-1309 | a ledger of increments 17, 18, 17, 18, ... exists for any number of rounds |
| Provider.EighteenIsSharp | tuna.go:1734 | 28 rounds of that ledger pay for all their bytes and still meet the cut-off test |
| Provider.FirstClaimCounts | tuna.go:1756-1766 | of up to three attempts to claim, the first that succeeds counts |
| Provider.PaymentSettles | tuna.go:1750-1777 | a payment changes the books iff there is a cost and some claim succeeds; then the first claim that succeeds is booked, and the credit is the bytes once for every whole time that the amount covers the cost |
| Provider.CheckDueIff | tuna.go:1719-1729 | a check is due iff the sample is not paid for and a minute has passed or more than 32 MiB are not credited |
| Provider.CheckFollowsShare | tuna.go:1719-1777 | so it is due whenever exact proportional accounting of the last payment sees more than 32 MiB unpaid |
| Provider.JudgementRule | tuna.go:1734-1739 | a judgement closes the session exactly under the division-free rule |
| Provider.Account.HandlePayment | tuna.go:1750-1777 | the retry loop leaves the books as that specification says |
| Provider.Account.Judge | tuna.go:1734-1739 | so does the cut-off |
| Tunnel.TakeTurn | tuna.go:1528-1548 | one turn delivers and counts exactly what its write took, and how it leaves the loop |
| Tunnel.CopyBuffer | tuna.go:1525-1550 | the destination gets exactly what the specification delivers, the counter grows by exactly that many bytes, and the loop ends as specified on every read or write outcome |
| Tunnel.CopyOutcome | tuna.go:1525-1550 | by reads and writes alone: the loop ends cleanly iff the first turn that ends it was written completely and had read the end, fails iff that turn's write failed or was short or its read broke, and goes on iff there is none |
| Tunnel.CopyDelivers | tuna.go:1525-1550 | everything read up to that turn is delivered, and of that turn what its write took |
| Tunnel.DeliveredPrefix | tuna.go:1525-1550 | what is delivered is a prefix of what was read, all of it while the copy goes on |
| Tunnel.UpstreamTurn | tuna.go:1528-1548 | how a whole turn of the upstream pump ends, what it counts and what it passes on |
| Tunnel.DownstreamTurn | tuna.go:1528-1548 | the same for the downstream pump |
| Tunnel.EmptyReads | tuna.go:1528-1548 | how a read that brings nothing leaves either pump |
| Tunnel.MoveKeepsInv | tuna.go:1525-1550 | each read, write or count step keeps all bytes in line from sink to source |
| Tunnel.PlayKeepsInv | tuna.go:1525-1550 | so does every run |
| Tunnel.ChainAccounting | entry.go:460-466 | in every run the delivered bytes are a prefix of the source; upstream count minus downstream count (with uncounted writes) = bytes in the stream + bytes held downstream + bytes lost by a failed downstream pump |
| Tunnel.DownstreamBehind | exit.go:249-255 | downstream count <= upstream count if and only if the upstream's uncounted write is matched by bytes not yet counted downstream |
| Tunnel.DownstreamCanOvertake | tuna.go:1529-1534 | a run in which the downstream counter is ahead |
| Tunnel.CleanEndDeliversAll | tuna.go:1543-1548 | if both pumps end without failure, everything arrived and both sides counted all of it |
| Datagrams.MoveKeepsInv | tuna.go:460-495 | writing, counting, arrival, loss and duplication keep both counters tied to the datagrams |
| Datagrams.Balance | tuna.go:460-495 | sent + not yet counted + duplicated = received + on the way + lost |
| Datagrams.MoveCounts | tuna.go:465-494 | counters and losses only grow |
| Session.PlayKeepsInv | tuna.go:1694-1779 | payer, wire, handler, sampler, check and all traffic keep their joint invariant in every interleaving |
| Session.ReachableInv | tuna.go:1694-1779 | it holds in every reachable state |
| Session.MetersBalance | entry.go:460-466 | summed over all connections, the two sides' counters differ by the bytes in transit |
| Session.SidesAgree | entry.go:119 | in every reachable state the two sides' counters, which pumps and datagrams share, differ by the bytes in transit, datagrams lost and duplicated, and writes not yet counted |
| Session.CoverageIff | tuna.go:460-495 | in every reachable state: payments that cover the provider's present total need the payer's counters to be ahead, and a payer that has paid and had claimed all it counted covers it iff they are, that is iff losses, duplicates, bytes under way and uncounted bytes balance in its favour in both directions |
| Session.NeverOverpaid | tuna.go:1230-1312 | paid counters <= used counters, and claimed <= sent <= cost of what the payer itself counted |
| Session.JudgedSampleIsReal | tuna.go:1697-1734 | a judged sample is a real total at least 10 s old, at most the present total, with a positive number of bytes |
| Session.GraceMeans | tuna.go:1718-1734 | a check takes the sample as it is when it begins, and judges it not before half a minute later |
| Session.JudgementSparesPaid | tuna.go:1734-1739 | a judgement of a sample covered by claimed increments of at least 18 units leaves the session open |
| Session.PaidSessionStaysOpen | tuna.go:1694-1741 | if that is so at every judgement, no interleaving closes the session |
| Session.ThresholdIncrementsSuffice | tuna.go:1250-1309 | with both prices at least 1 and no payment due by the timer, coverage of the judged samples comes in increments of at least 31 units |
| Session.CoveredSessionStaysOpen | tuna.go:1694-1741 | then coverage of every judged sample alone keeps the session open in every interleaving |
| Refinement.StepRefines | tuna.go:1244-1311 | each step of a session is no round, or exactly one round, of the payment loop in 64-bit arithmetic |
| Refinement.SessionRefinesPayer | tuna.go:1230-1312 | a session whose traffic can be priced in 64 bits has the ledger, paid counters, last cost and last time of some run of the payment loop |
| Refinement.NowIsMeterTotal | exit.go:164-185 | the session's running cost and bytes are the totals of the provider's meter for its one service, in 64 bits too if they fit |
| Refinement.RoundIsMatched | tuna.go:1244-1311 | each wake-up of the payment loop that sees the session's counters and clock, whatever its calls come to, is matched by steps of the session |
| Refinement.PayerRefinesSession | tuna.go:1230-1312 | so is every run of the loop over a session, with the same ledger, paid counters, last cost and last time |
| Timing.Rest | tuna.go:1697-1732 | a provider left alone can go on for any time and be late with nothing; only samples, checks and the closing change |
| Timing.UnderpaidIsClosed | tuna.go:1697-1740 | a provider on time closes a session that nobody uses or pays for any more and whose present totals do not stand up to the cut-off test |
| CutOff.Carry | tuna.go:1525-1550 | any number of bytes can be carried through a connection and counted on both sides |
| CutOff.SeventeenIsCutOff | tuna.go:1697-1740 | a session from its start, with a provider that samples every second and does all else on time, in which every judged sample is covered by claimed increments of at least 17 units, and which is closed |
| CutOff.HarmlessIff | tuna.go:1718-1740 | covered samples never lead to a cut-off iff increments are at least 18 units, over all sessions and over those with a provider on time |
| CutOff.LostDatagramsCutOff | tuna.go:1697-1740 | a session with a provider on time that is closed because 33 full datagrams were lost, while the payer has counted, and owes, nothing |
| CutOff.DoubledDatagramsCutOff | tuna.go:1697-1740 | one that is closed because 33 full datagrams arrived twice, while at every judgement the payer has paid and had claimed all it counted |
| Framing.ByteStream.Read | util.go:115-134 | one read takes bytes from the front of the stream only, as the chunks come |
| Framing.ByteStream.ReadFull | util.go:117-131 | exactly n bytes whatever the chunks, or an end error that depends only on the contents |
| Framing.ByteStream.ReadVarBytes | util.go:115-134 | result and remaining stream are those of parsing the contents, under every chunking |
| Framing.WriteVarBytes | util.go:136-151 | header and payload are appended, only the header if the second write fails, and nothing if the first does |
| Framing.ValueOfLittle | util.go:122 | decoding an encoded number gives it back if it fits the width |
| Framing.LittleOfValue | util.go:138 | encoding a decoded number gives the bytes back |
| Framing.LittleDigits | util.go:138 | the k-th byte is the k-th digit to base 256, least significant first |
| Framing.CutsDoNotMatter | util.go:115-134 | the contents of a stream are those of its pieces in a row |
| Framing.OnePiece | util.go:115-134 | a piece cut in two reads the same |
| Framing.FullMeans | util.go:117-131 | a full read succeeds iff there are enough bytes, and takes that many off the front; an empty stream and an early end are different errors |
| Framing.TruncatedIsRefused | util.go:115-134 | what any stream parses to: refused if shorter than a header or than its header announces, or too large |
| Framing.RoundTrip | util.go:115-151 | a written message is read back with nothing else consumed if and only if it is within the limit |
| Framing.OversizedKeepsPayload | util.go:122-125 | an oversized header is refused with exactly four bytes consumed |
| Framing.RoundTripAll | util.go:115-151 | any list of messages within the limit is read back, consuming exactly what was written |
| Handshake.Endpoint.GetOrComputeSharedKey | tuna.go:508-531 | the cached shared key is always the computed one |
| Handshake.Endpoint.WrapConn | tuna.go:551-617 | result, stored key and ready token for each way the peer's metadata can be; a server leaves a token, an unsupported algorithm is found only after that, and failing earlier changes nothing |
| Handshake.CompletesIff | tuna.go:551-617 | both sides complete iff the peer is the expected one, the initiator's key has the right size, the algorithm is supported and, with encryption, both keys are on the curve |
| Handshake.RefusedFor | tuna.go:551-617 | which check refuses a peer, and what name, nonce and algorithm a session has otherwise |
| Handshake.SidesAgree | tuna.go:551-603 | completed sides hold the same nonce, algorithm and key |
| Handshake.ZeroKeyIff | tuna.go:594-602 | a completed session has the all-zero key iff its algorithm is none |
| Handshake.SameKeyIff | tuna.go:594-602 | two completed encrypted exchanges have the same key iff they have the same nonce and the same two ends |
| Handshake.AnnouncementNamesStoredKey | tuna.go:641-657 | the key named later over UDP is the one the responder stored |
| Handshake.NamesIdentify | tuna.go:593 | equal key names mean equal public key and nonce iff the public keys have equal length |
| Rendezvous.EncryptUDPConn.AddCodec | udp.go:61-89 | both tables become the one that the server's step installs, or an unsupported algorithm changes nothing |
| Rendezvous.EncryptUDPConn.ReadFromUDPEncrypted | udp.go:96-125 | bytes, encryption mark and error for each case of socket state, codec and datagram |
| Rendezvous.CodecRoundTrip | udp.go:61-174 | peers that added the same codec for each other read what the other wrote, marked as encrypted; with a cipher nothing else yields those bytes |
| Rendezvous.WithoutCodec | udp.go:113-163 | what is read and written without a codec, and what a datagram that does not decode is read as |
| Rendezvous.HandleMeans | tuna.go:415-463 | what the UDP reader does with each kind of datagram |
| Rendezvous.PlayKeepsInv | tuna.go:402-475 | keys, tokens, reader, codecs and queued packets keep their joint invariant in every interleaving |
| Rendezvous.PassedReaderFindsKey | tuna.go:433-440 | passing the ready channel implies that the key is stored, so the lookup never fails |
| Rendezvous.StoresIff | tuna.go:579-620 | which handshakes leave a key on the server, and which of them complete |
| Rendezvous.InstallMeans | tuna.go:441-446 | the announcing address gets a codec with the key and the announced algorithm, if there is one, and the reader goes on either way |
| Rendezvous.PacketsComeFromHandshakes | tuna.go:422-463 | every packet on the read channel comes from an address that announced the public key and nonce of a TCP handshake that stored its key, decoded with that key |
| Rendezvous.ClientIsServed | tuna.go:436-463 | whatever algorithm the greeting named, and under any supported one that the announcement names, a client whose key was stored gets a packet through |
| Rendezvous.RefusedClientIsServed | tuna.go:603-620 | also one whose handshake was refused for its algorithm |
| Rendezvous.OnlyCompletedServedIff | tuna.go:603-620 | over all runs with allowed greetings: packets stem from completed handshakes iff no allowed greeting asks for an unsupported algorithm |
| Rendezvous.SealedIfAnnounced | tuna.go:442 | a packet under an encrypted handshake is sealed with the algorithm agreed over TCP iff its announcement named that algorithm |
| Rendezvous.AlwaysSealedIff | tuna.go:442 | over all runs of one encrypted handshake: packets are sealed as agreed iff its announcements name the agreed algorithm (or one without a codec) |
| Rendezvous.PlayKeepsTokens | tuna.go:605-611 | the one-slot channel of each name never holds more than one token, and passes plus tokens never exceed handshakes |
| Rendezvous.PassesNeedHandshakes | tuna.go:433-434 | a name passes at most once per handshake, and a reader waiting for one more cannot go on |
| Rendezvous.OneSignalOnePass | tuna.go:605-611 | for a name handshaken at most once, passes plus tokens equal handshakes |
| Rendezvous.WaitingReaderStays | tuna.go:433-434 | a reader that waits at an empty channel waits, and reads no packet, in every continuation without a handshake of that name |
| Rendezvous.CanPassIff | tuna.go:433-434 | in every reachable state, a reader waiting for a name handshaken at most once can go on iff passes are fewer than handshakes |
| Rendezvous.SecondAnnouncementBlocks | tuna.go:422-434 | so a second announcement of a key handshaken once stops the reader |
| Rendezvous.AnnouncedTwiceWaits | tuna.go:422-434 | a run that reaches that state: a served client announces its key again from another address |
| Rendezvous.StrangerStopsReader | tuna.go:422-434 | one announcement of a key that nobody has handshaken stops the reader from the start, in every continuation without that handshake |
| UdpMux.PortRoundTrip | tuna.go:1562-1570 | every 16-bit port survives conversion to a connection id and back |
| UdpMux.ConnIDRoundTrip | tuna.go:1562-1570 | every connection id survives the other way |
| UdpMux.LooksLikeControl | tuna.go:422 | a data prefix is all zero if and only if port, service and port index are all zero |
| UdpMux.ReplyFollowsRequest | entry.go:492-566 | a reply under a request's prefix is routed to that request's socket and address with the reply's payload, iff the socket exists |
| UdpMux.RouteIff | entry.go:494-523 | a reply is handed on iff it has a prefix and its socket and source port are known, and where to |
| UdpMux.EntryMux.FromClient | entry.go:552-566 | the client table and the datagram sent are those of the step system's send |
| UdpMux.EntryMux.FromServer | entry.go:494-523 | the reply is routed as in the step system; one without a full prefix closes the entry |
| UdpMux.ExitMux.GetServiceConn | exit.go:339-392 | cached connection, new connection with the request's prefix, or an error that leaves the cache alone |
| UdpMux.LookupMeans | exit.go:339-392 | by the bytes of the prefix and the lists of service ports: which connection a datagram gets, and when there is none |
| UdpMux.SentStays | entry.go:475-571 | whatever was sent may still arrive after any step |
| UdpMux.ExpiryMeans | entry.go:555 | an entry of either address cache may expire at any time, and nothing else with it |
| UdpMux.HasServiceIff | exit.go:332-350 | a request has a service iff the exit lists a port under the entry's service and socket number |
| UdpMux.PlayKeepsInv | entry.go:475-571 | if no request shares the source port of one that has a service, all routing state stays consistent under loss, duplication, reordering and cache expiry |
| UdpMux.RepliesReturnToSender | entry.go:492-523 | every delivered reply leaves the socket and goes to the address of the one request its connection carries, with the payload the service sent |
| UdpMux.RequestsReachTheirService | exit.go:412-441 | every payload handed to a service was sent by a client, unchanged, for that service port |
| UdpMux.SharedPortMixesReplies | exit.go:339-346 | any two different requests sharing a source port have a run that answers over the first one's socket to the second one's address |
| UdpMux.RepliesAreSafeIff | entry.go:492-523 | over all runs of allowed requests: replies go back where their connection's requests came from iff no allowed request shares the source port of an allowed one that has a service |
| WorkPool.PlayKeepsInv | tuna.go:1059-1083 | feeder, slot, workers and wait group keep their joint invariant in every interleaving |
| WorkPool.FinishedMeasuresAll | tuna.go:1066-1087 | past the wait group every node was measured exactly once and every success recorded exactly once |
| WorkPool.FastestAreKept | tuna.go:1093-1098 | whatever the sort does with ties, the kept nodes are distinct successes in delay order, none left out is faster, and none is left out below the limit |
| WorkPool.PlayTakesAll | util/queue.go:7-28 | each step takes exactly one off the number of steps to come |
| WorkPool.RunsAreBounded | util/queue.go:7-28 | no run is longer than five steps per node plus one per worker plus one |
| WorkPool.NeverStuck | util/queue.go:7-28 | with at least one worker some step is always enabled until the end |
| WorkPool.EveryRunEnds | tuna.go:1066-1087 | with at least one worker every maximal run gets past the wait group |
| WorkPool.SomeRunFinishes | tuna.go:1066-1087 | and there is such a run |
| WorkPool.NoWorkersNoEnd | util/queue.go:13-19 | without workers none does |
| Sampling.AddPage | tuna.go:962-967 | exactly the page's subscribers are added, known ones keep their metadata, and the counter stays the number stored |
| Sampling.AskServer | tuna.go:950-967 | one count call and, if positive, one page call, with the failures of either |
| Sampling.Pass | tuna.go:949-980 | one pass of the loop ends the search as specified, or strictly decreases bound minus index with the same search still to come |
| Sampling.Sample | tuna.go:947-980 | the loop that moves its index and appends to its bound does exactly the plain search: prefixes in order, or one last query for everything |
| Sampling.SearchFinds | tuna.go:949-980 | by the replies alone: prefixes are queried as long as calls succeed, the batch is not complete and the estimate, in the source's own quotients, is good enough; otherwise the search ends, or asks for the whole topic; what is known at the end is what the queries sent brought |
| Sampling.CollectedMeans | tuna.go:962-967 | that is every subscriber on some page, with its first answer |
| Sampling.PageIsDrawn | tuna.go:956 | the offset is that of the drawn page, and every page may be drawn |
| Sampling.AskSends | tuna.go:950-957 | the count, and the offset exactly for a positive count, that a query carries |
| Sampling.PrefixesMean | tuna.go:933-945 | the whole topic below a batch, else every first byte in the shuffled order |
| Sampling.SearchProperties | tuna.go:947-980 | at most as many count queries as initial prefixes; the whole topic only last; offsets below the count; a successful search short of a batch asked everything |
| Sampling.WalkAsksInOrder | tuna.go:949-980 | the queried prefixes are the leading ones of the shuffled list, then at most the whole topic, chosen only while at least eight prefixes were left |
| Sampling.WalkIsThorough | tuna.go:968-980 | a successful search stops early only with a full batch |
| Sampling.WalkOffsets | tuna.go:956-957 | every page offset is a multiple of the batch size below the reported count |
| Sampling.PageOffsetOk | tuna.go:956-957 | for every count, random value and batch size |
| Sampling.NoPrefixTwice | tuna.go:933-980 | no prefix is queried twice |
| Sampling.CollectFromTopic | tuna.go:923-997 | without an allow list: the failures, and on success the sampled subscribers overridden by favourites, each address once |
| Sampling.CollectAllowed | tuna.go:903-922 | with an allow list: an error iff no address has metadata, else exactly those that do, in order |
| Sampling.AnswerMeans | tuna.go:907-917 | metadata comes from the list, or from the network exactly if the list has none |
| Sampling.AnsweredInOrder | tuna.go:918 | each address with metadata is listed in order, once for every time it occurs, and no others are |
| Sampling.LastAnswerCounts | tuna.go:907-919 | listed addresses and metadata match, and a repeated address keeps its last answer |
| Avoid.AvoidStorage.AddAvoidNode | storage/measure.go:220-245 | defaults, then the node is filed under its subnet; an invalid address changes nothing |
| Avoid.AvoidStorage.ClearAvoidExpired | storage/measure.go:147-158 | exactly the unexpired nodes stay, and no empty bucket |
| Avoid.ClearBucket | storage/measure.go:150-154 | the inner loop leaves exactly the unexpired nodes of a bucket |
| Avoid.AvoidStorage.GetAvoidCIDR | storage/measure.go:247-262 | the reported subnets are those whose bucket has more than three entries, each once |
| Avoid.SubnetMeans | storage/measure.go:229-233 | a host has a subnet iff it is an IPv4 address and the mask has at most 32 bits, and which it is |
| Avoid.FilesMeans | storage/measure.go:220-229 | which node is filed where: a mask of 16 and an expiry of a week by default |
| Avoid.IndexRefinesLog | storage/measure.go:147-245 | after any adds and sweeps with keys that equal the IPs or make no valid subnet, the index holds exactly the surviving nodes of a flat log, each in its subnet's bucket |
| Avoid.NoEmptyBucket | storage/measure.go:155-157 | no bucket is ever empty |
| Avoid.ReportedExactly | storage/measure.go:247-262 | a subnet is reported iff more than three distinct addresses survive in it |
| Avoid.ForeignKeyMisfiles | storage/measure.go:238-244 | for every key that differs from the node's IP the first add of a bucket is filed under the IP |
| Avoid.AlwaysRefinesIff | storage/measure.go:220-245 | over all logs with allowed keys: the index stands for the log iff every allowed key equals its node's IP or makes no valid subnet |
| Avoid.SubnetIsAlignedBlock | storage/measure.go:229 | the subnet of an address under a mask is the aligned block of 2^(32-mask) addresses around it, as in section 3.1 of RFC 4632 |
| Favorites.AddFavoriteNode | storage/measure.go:186-218 | both scans in any order lead to the specified new store and result |
| Favorites.ClearFavoriteExpired | storage/measure.go:138-143 | exactly the unexpired favourites stay |
| Favorites.ExpiryMeans | storage/measure.go:187-189 | an expiry of a year by default, and nothing else changed |
| Favorites.AcceptedIfFaster | storage/measure.go:191-199 | at capacity with positive bandwidths a node is accepted iff it beats some stored bandwidth, in every order |
| Favorites.OrderFreeIff | storage/measure.go:192-199 | acceptance is independent of the order iff no stored bandwidth is zero, or the newcomer's is not positive, or it beats all |
| Favorites.EvictsFirstToExpire | storage/measure.go:200-210 | the evicted entry has minimal expiry |
| Favorites.BoundKeptIff | storage/measure.go:191-216 | one add keeps the bound of 8 iff there is room, the node is refused, some entry expires before MaxInt32, or the key (or the empty key) is stored |
| Favorites.NeverOverCapacity | storage/measure.go:186-218 | adds made one after another keep at most 8 when all expiries are below MaxInt32 |
| FavoriteRaces.PlayKeepsInv | storage/measure.go:186-218 | what calls under way know of the store, and how far it has outgrown its bound, in every interleaving |
| FavoriteRaces.SizeIsBounded | storage/measure.go:186-218 | with any number of calls under way, the store exceeds its bound by at most the number of overlapped adds |
| FavoriteRaces.OverlapsGrowWithoutLimit | storage/measure.go:202-210 | from any full store, for every n a run with two calls at a time has n overlapped adds and grows by n: both evict the same entry |
| FavoriteRaces.OverlappingAddsOverflow | storage/measure.go:191-214 | a run of two adds that both read a length of 7 and end up with 9 |
| FavoriteRaces.LoneCallsNeverOverlap | storage/measure.go:186-218 | with at most one call under way at a time no add is overlapped |
| FavoriteRaces.LoneRunIsAfterAdd | storage/measure.go:186-218 | a call that nobody interrupts does exactly what the method is specified to do |
| FavoriteRaces.SafeIff | tuna.go:1117-1190 | no run from at most 8 exceeds 8 iff at most one call is under way at a time |
| Geo.MaskIsKept | geo/geo.go:48-55 | adding the default mask is idempotent |
| Geo.Location.Match | geo/geo.go:45-74 | the mutating, caching match answers as the pure one, now and for every later question |
| Geo.IPFilter.Empty | geo/geo.go:84-99 | true iff all rules are empty |
| Geo.IPFilter.NeedGeoInfo | geo/geo.go:101-116 | true iff some rule has a country code, country or city |
| Geo.IPFilter.GetLocation | geo/geo.go:133-143 | the first ready provider with an answer decides, else the location is unknown |
| Geo.IPFilter.AllowLocation | geo/geo.go:145-169 | the verdict of the pure rule lists, leaving the rules as written |
| Geo.IPFilter.AllowIP | geo/geo.go:118-131 | the verdict with the lookup done only when needed |
| Geo.FirstAnswerCounts | geo/geo.go:133-143 | the first ready provider that knows something decides, else the country is unknown |
| Geo.AddressRule | geo/geo.go:46-68 | an address rule matches exactly the addresses of its block, a block by itself if it has no mask |
| Geo.BrokenAddressRule | geo/geo.go:56-60 | a rule whose address does not parse matches nothing |
| Geo.CountryRule | geo/geo.go:70-73 | other rules match exactly the locations of their country code, ignoring case |
| Geo.RefusedIff | geo/geo.go:145-169 | a location is refused iff a disallow rule matches it, or no allow rule does although there are some |
| Geo.LookupNeededIff | geo/geo.go:101-116 | a lookup is needed iff some rule names a country or a city |
| Geo.LookupEchoes | geo/geo.go:133-143 | if providers echo the address, so does the lookup |
| Geo.EchoingMeans | geo/geo.go:220-226 | providers that answer with the address asked about, or nothing, are such |
| Geo.SkippingLookupIsSafe | geo/geo.go:118-131 | for a non-empty address, skipping the lookup gives the verdict of looking it up |
| Geo.EmptyAddressVerdicts | geo/geo.go:145-168 | for the empty address the two verdicts agree iff the allow list has no non-empty rule |
| Linger.PlayKeepsInv | tuna.go:1314-1380 | pumps, wait group, active sessions and closers keep their joint invariant in every interleaving |
| Linger.ActiveSessionsAreCopying | tuna.go:1314-1333 | active sessions = pumps in their copy phase <= wait group |
| Linger.ChannelsCloseOnce | entry.go:299-322 | however many closes race, each channel is closed exactly once, by one of them |
| Linger.SawZeroIsTrue | tuna.go:1365-1379 | a wait ended by the wait group means that it was empty at some moment during that wait |
| Linger.NegativeLingerWaits | exit.go:697-716 | with a negative linger the body of Close starts only after the wait group was empty during the call |
| Linger.CloserGoesOn | tuna.go:1356-1379 | when a call of Close can go on, by its linger and the wait group |
| Linger.CloseWaitsForPump | tuna.go:1314-1379 | a run, under any linger but zero, in which a call of Close waits for a copying pump and then closes the node |
| Linger.CloseBodyMeans | entry.go:299-312 | the first call to get through closes both channels, every later one finds the node closed |

## Left out

- Session.PaidSessionStaysOpen: does not say that an honest payer pays in time; the provider may start its check before the payer's own trigger (truncated credit), and the payer skips a round whose cost equals the last one, so coverage of the judged sample is a condition.
- Session.NeverOverpaid: uses unbounded costs and counters; where the 64-bit arithmetic agrees is `Billing.MachineCostExact`, `Payer.RunKeepsInv` and `Provider.MachineTotalExact`.
- Session.PlayKeepsInv: one service, price pair and payee per run, one payment stream, one entry per UDP socket of the exit, forward mode (the reverse mode swaps the directions); the two counters of a poll are loaded together; each delayed sample is published atomically; a payment whose sending fails is not received, though in the code its bytes may arrive all the same.
- Datagrams.Balance: a datagram that its receiver discards counts as lost; reconnecting, which keeps the counters, is left out.
- Payer.RunKeepsInv: assumes that pricing the unpaid bytes stays below 2^63 and that counters grow without wrapping; beyond that `Billing.MachineCostExact` says exactly what breaks.
- Payer.PaymentLoop.BillTraffic: the transaction fee, the creation of a nano-payment channel and the sending are outcomes only; what the fee amounts to is left out.
- Provider.Closes: 0.9 and the average price are exact rationals truncated to whole units, not rounded floating-point numbers.
- Provider.Account.HandlePayment: the amount passed to the credit is the amount just claimed, as the claimer's running amount is with a single payment stream.
- Timing.Rest: the provider's own sleeps are exact; in the code each may take a little longer.
- Tunnel.CopyBuffer: counters are unbounded, so a wrap after 2^64 bytes is not modelled.
- WorkPool.FastestAreKept: the library sort is any permutation in delay order; `Swap` and `Less` of the node list enter through it. Cancelling the context while nodes are measured shows up as failures of the jobs.
- Sampling.Sample: assumes a positive batch size, as the code divides by it; the estimate of remaining requests is compared exactly instead of in floating point.
- Avoid.IndexRefinesLog: IPv4 addresses only, and reloading from a file is not modelled.
- Favorites.AddFavoriteNode: the order of each map iteration is an input, and bandwidths are reals. The method is one uninterrupted call; overlapping calls are those of `FavoriteRaces`.
- FavoriteRaces.SizeIsBounded: assumes that all entries expire below MaxInt32, as `Favorites.BoundKeptIff` shows is needed; saving the store to a file is left out.
- Geo.Location.Match: address and block parsing, case folding and the providers' answers are parameters; the search for a mask is the meaning of the regular expression.
- Handshake.Endpoint.WrapConn: cryptography is symbolic (a shared key is the pair of its owners, key derivation is injective, all unsupported algorithms are one); message transport and its errors are left out.
- Rendezvous.ClientIsServed: takes metadata with a public key to survive formatting and to take up space, and sealing to lengthen; how metadata without a key is formatted plays no part.
- Rendezvous.PlayKeepsInv: the per-service byte counters updated by the reader and writer, and the key deletion of reverse sessions, are left out; keys are never removed.
- UdpMux.PlayKeepsInv: one entry and one exit; the exit's cache is keyed by source port only, so several entries could collide as two clients do.
- Linger.ChannelsCloseOnce: listeners, connections and callbacks closed in the same body are left out, and so is the guarded channel close of the reverse entry.
- Bandwidth measurement and its second sort: the same pool and truncation with another order.
- The subscriber filter between sampling and measuring: its exclusion of avoided subnets only continues the inner loop, so nothing is excluded by it.
- Sockets, dialling, timeouts, multiplexed sessions, wallet and blockchain calls, JSON files, configuration, command-line programs, geo data downloads, logging.
