# Cross-chain routing: a verified model

A Dafny model of the Pathfinder routing engine, of the configuration pipeline that feeds it and of
the client that carries its routes out. `dafny verify dfyconfig.toml` checks everything.

**Routing (Go).** `RouteIndex.dfy` builds the eight lookup maps in place and shows that they refine
linear scans over the configuration. `RouteIndirect.dfy` is the breadth-first search for a swap-free
path: sound, complete and shortest. `RouteMultihop.dfy` finds routes through a broker: a route is
returned if and only if a declarative feasibility condition holds, and what is returned can be
executed hop by hop. `Pathfinder.dfy`, `DenomResolver.dfy` and `FindPath.dfy` turn the choice into legs, token
names and memos.

**Memos and what they do.** `IbcMemo.dfy` holds the memo compilers. `PacketMachine.dfy` is an
abstract machine for packets that carry memos: packet forwarding (PFM) on chains that run it, and
contract calls through ibc-hooks. `BrokerTrips.dfy` and `IndirectTrips.dfy` run the compiled memos on
that machine: the log of the run is the planned list of transfers, with one swap at the broker for
the computed minimum, if and only if the chains that must forward run PFM. Only the channels and
denoms of the route itself are assumed to be as it says. `FinalDenoms.dfy` and `IndirectDenoms.dfy`
show with which denom the receiver ends, on networks that follow ICS-20 (`Ics20Networks.dfy`).

**Configuration (Go).** `RouteBuilder.dfy` connects chains and computes the denoms each route may
carry, `ConfigPipeline.dfy` converts them, `Ics20.dfy` compares the computed denoms with the trace
rules of ICS-20 (Fungible Token Transfer, "Data Structures" and "Packet relay"), and `EndToEnd.dfy`
composes all of it: a native token that a configuration allows from A to its neighbour B is routed by
`FindPath` with a single transfer. `FourChains.dfy` is a configuration that meets the premises of
these results, on which the router's answers are followed through; `EndpointScoring.dfy` is the
majority scoring of endpoints.

**Client (TypeScript).** `TransferSteps.dfy` compiles a response into steps, `TaskExecution.dfy`
drives them through failures and retries, `IbcTracking.dfy` follows packets from chain to chain,
`TrackedRoutes.dfy` applies that to broker routes, `StepTrips.dfy` shows what carrying out the steps
does on the network, `Mutex.dfy` and `LatestRequest.dfy` are the two
concurrency protocols, over all interleavings. `Amounts.dfy` has the three places that compute with decimal text, on both sides.

Where the source ranges over a Go map the model picks an element by `:|`, so every result holds for
every iteration order. Ids, denoms and channels are strings, compared and concatenated only where
the source does so. SHA-256 (`ComputeDenomHash`) is a function parameter, assumed injective where a
result says so. Broker quotes, address conversion, transactions, queries and database writes are
arbitrary functions, the last three of the number of questions asked so far.

## What the code was found to do

- The slippage minimum is exact if and only if `expected * (10000 - bps)` fits in an int64
  (`Amounts.MinOutputExact`); above that the product wraps, as `Amounts.MinOutputOverflows` shows.
- `itoa` prints the least int64 as a bare sign (`Amounts.Itoa`); every other value reads back.
- The `Path` of a broker route leaves out the outbound intermediate chain, exactly when the outbound
  side has two hops (`TransferSteps.PathListsEveryChain`; `FourChains.PathCanMissAChain` for a configuration on which
  every route the router returns is such).
- A registry entry between a chain and itself breaks the symmetry of the channel map exactly when it
  is the chain's last usable one and its two ends differ (`RouteBuilding.ChannelMapInvolution`, and
  `RouteBuilding.TwoEndedSelfConnectionBreaksIt` for an input).
- Denoms are computed with the sender's port, so they match what the other chain computes, and what
  ICS-20 delivers, exactly when both channel ends use one port (`Ics20.NativeEntryDelivers`,
  `Ics20.OutAndBack`; `Ics20.UnequalPortsAreWrong` for an input).
- The destination denom of a re-forwarded IBC token hashes the local voucher name: instead of the
  full trace when it is sent on, and instead of being unwound when it goes back over the channel it
  came through to a chain that is not its origin. `Ics20.ForwardedEntryExact` gives the exact
  conditions, `Ics20.ForwardedEntryIsWrong` shows that real names and traces never meet them, and
  `Ics20.SentOnIsWrong` and `Ics20.SentBackIsWrong` are failing inputs. A token sent to its origin is
  promised as the native one, which is right exactly if it came straight from there over this channel
  (`Ics20.HomewardEntryExact`; `Ics20.SentHomeIsWrong` for an input).
- Clearing the form does not cancel a request in flight: its answer can still put data back
  (`LatestRequest.ResetDoesNotCancel`, with a run in `LatestRequest.ClearedFormFillsAgain`).
- The strategies built for a receive query are always exactly one, so the loop over them never tries
  a second (`IbcTracking.BuildQueryStrategies`).
- The step index lags behind the completed steps by the number of refused writes for steps before
  the last, and the row stays at the last step whose write was accepted
  (`TaskExecution.LagExactly`, with a run in `TaskExecution.FirstWriteRefused`). While the index lags
  the retry button is never offered (`TaskExecution.LagBlocksRetry`).
- When tracking throws, a first run fails the transfer but leaves its row in progress
  (`TaskExecution.ThrowLeavesRow`); a retry marks it failed. Otherwise, while no write is refused, the
  row says how the transfer ended (`TaskExecution.RunTransfer`).
- A route with two outbound hops is tracked on ChainTo for a packet addressed to the skipped chain.
  A transfer that arrives is confirmed exactly if it has at most one outbound hop, or ChainTo shows
  that packet after all (`TrackedRoutes.TrackedExactly`); `TrackedRoutes.ArrivesUntracked` is a
  transfer that arrives and is not confirmed.
- Two branches the finder never reaches would misroute: more than two inbound hops with the swap
  on the broker (`RouteResponses.BuildSwapOnlyMemo`), and a contract call with more than one outbound
  leg (`RouteResponses.ContractMemoMissesAHop`).

Where comments and code differ the model follows the code: comments on the memo builders say that
every intermediate hop is addressed to "pfm", but the code uses the converted address when there is
one, and the package comment's limit of four chains is not enforced.

## Model

| member | source | states |
|---|---|---|
| `RouteIndexing.RouteIndex.BuildIndex` | pathfinder/router/index_build.go:22-105 | from an empty index: fails only on an empty list, and otherwise each of the eight maps agrees with a linear scan of the configured links, whatever the order in which token maps are ranged |
| `RouteIndexing.RouteIndex.RegisterBrokers` | pathfinder/router/index_build.go:27-37 | the first pass registers exactly the brokers, the chain of each and the PFM chains |
| `RouteIndexing.RouteIndex.IndexNativeTokens` | pathfinder/router/index_build.go:55-63 | native tokens extend the token scan, the first of a denom winning |
| `RouteIndexing.RouteIndex.IndexRoute` | pathfinder/router/index_build.go:65-89 | one route extends the direct, hop, to-broker and token scans by one link |
| `RouteIndexing.RouteIndex.IndexRouteTokens` | pathfinder/router/index_build.go:66-69 | route entries override earlier tokens, for any order of the token map |
| `RouteIndexing.RouteIndex.IndexDirectRoutes` | pathfinder/router/index_build.go:71-75 | the last route for a key is kept |
| `RouteIndexing.RouteIndex.IndexRouteToBroker` | pathfinder/router/index_build.go:82-88 | the last route to a broker is kept |
| `RouteIndexing.RouteIndex.IndexBrokerRoutes` | pathfinder/router/index_build.go:91-101 | the first route from a broker to a chain is kept |
| `RouteIndexing.FirstIsFirst` | pathfinder/router/index_build.go:77-101 | the scan used for hop and broker maps is the earliest matching link, and there is none exactly if no link matches |
| `RouteIndexing.LastIsLast` | pathfinder/router/index_build.go:66-88 | the scan used for the other maps is the latest matching link |
| `RouteIndexing.RouteKeyInjective` | pathfinder/router/helpers.go:8-10 | keys of ids without "->" or ":" determine both chains and the denom |
| `RouteIndexing.DirectRouteIsLastCarrier` | pathfinder/router/index_build.go:71-75 | the direct map holds the last link from a to b that allows d, and an entry exists exactly if one does |
| `RouteIndexing.RefinedIndexIsKeyed` | pathfinder/router/index_build.go:65-101 | in a built index every map keyed by destination holds routes to that destination |
| `RouteIndexing.IndexIsDeterminate` | pathfinder/router/index_build.go:22-105 | any two builds from one list agree on every lookup |
| `RouteIndexing.FindRouteFromChain` | pathfinder/router/helpers.go:13-21 | finds a route to the chain if the source has one, none otherwise |
| `RouteIndexing.DirectRouteFound` | pathfinder/router/route_direct.go:8-19 | a direct route is found exactly if some link carries the token and the token indexed last arrives as the requested denom |
| `IndirectRouting.FindIndirectRoute` | pathfinder/router/route_indirect.go:11-96 | terminates; a returned route is a simple token-respecting path of indexed routes from ChainFrom to ChainTo, and no path whose every hop is allowed under all token choices is missed or shorter |
| `IndirectRouting.UnambiguousSearchIsExact` | pathfinder/router/route_indirect.go:32-95 | with at most one denom per origin on a chain: a route is returned if and only if a token-respecting path exists, and it is a shortest one |
| `IndirectRouting.ExploreNeighbours` | pathfinder/router/route_indirect.go:63-92 | expanding one node, in any map order, keeps the queue layered by depth with each chain in it at most once, and visits every neighbour that must be reachable |
| `IndirectRouting.ShortPathsAreDone` | pathfinder/router/route_indirect.go:36-61 | any path shorter than the queue's front ends at a chain already taken off the queue |
| `IndirectRouting.Reconstruct` | pathfinder/router/route_indirect.go:43-60 | walking the prev pointers gives the chains and routes of the node in order |
| `IndirectRouting.FindTokenByOrigin` | pathfinder/router/route_indirect.go:99-106 | returns some token of that origin on the chain, none only if there is none |
| `IbcMemo.BuildNestedForwardMemo` | pathfinder/router/ibc_memo/builder.go:138-181 | nests the hops in order, the final receiver filling in where a hop names none; nothing for no hops |
| `IbcMemo.FlattenNest` | pathfinder/router/ibc_memo/builder.go:138-181 | flattening a nested memo of any length gives back the hops with receivers resolved and the action inside |
| `IbcMemo.NestFlatten` | pathfinder/router/ibc_memo/builder.go:138-181 | nesting what was flattened gives back the memo |
| `IbcMemo.OperationsAreLinked` | pathfinder/router/brokers/osmosis/types.go:59-81 | the swap operations form a chain from the input denom to the last pool's output |
| `IbcMemo.GetOperationsWithInput` | pathfinder/router/brokers/osmosis/types.go:59-81 | the loop over pools yields exactly those operations, none for an empty route |
| `IbcMemo.BuildSwapAndMultiHopMemo` | pathfinder/router/brokers/osmosis/memo.go:168-223 | swap, then leave over the first outbound hop with the rest nested; fails exactly without hops, contract or operations |
| `IbcMemo.BuildOutboundForwardMemo` | pathfinder/router/brokers/osmosis/memo.go:187-196 | the memo for all outbound hops but the first |
| `IbcMemo.WrapInForwards` | pathfinder/router/brokers/osmosis/memo.go:300-342 | the backward loop nests the call in forwards through all the inbound hops |
| `IbcMemo.BuildForwardSwapMemo` | pathfinder/router/brokers/osmosis/memo.go:263-343 | all inbound hops, then the swap call that forwards; error cases exactly |
| `IbcMemo.BuildForwardSwapForwardMemo` | pathfinder/router/brokers/osmosis/memo.go:350-451 | all inbound hops, the swap, all outbound hops; error cases exactly |
| `RouteResponses.HopAndSwapIsNested` | pathfinder/router/brokers/osmosis/memo.go:481-534 | the hand-written two-hop memo is the nesting of its second hop around the swap |
| `PacketMachine.RunForwards` | pathfinder/router/ibc_memo/doc.go:10-38 | the machine carries any memo along exactly its hops and leaves the innermost action, if every forwarding chain runs PFM |
| `PacketMachine.RunStopsShort` | pathfinder/router/ibc_memo/doc.go:10-38 | otherwise the packet rests short of its itinerary and nothing has been swapped on the way |
| `PacketMachine.RunSwapAndTransfer` | pathfinder/router/ibc_memo/doc.go:40-60 | an accepted call swaps once and pays out on the spot |
| `RouteResponses.CheckPFMSupport` | pathfinder/router/pathfinder.go:236-249 | true exactly if there are intermediate chains and all run PFM |
| `RouteResponses.PFMMemoFlattens` | pathfinder/router/pathfinder.go:254-284 | the recursive memo flattens to the remaining legs in order |
| `RouteResponses.PFMMemoMatchesNestedMemo` | pathfinder/router/pathfinder.go:254-284 | and to the same channels and ports as the nested builder on those legs |
| `RouteResponses.BuildIndirectLegs` | pathfinder/router/pathfinder.go:153-205 | legs follow the path over its routes, each naming a token of the origin on the chain it leaves |
| `RouteResponses.BuildIndirectResponse` | pathfinder/router/pathfinder.go:153-232 | path, legs, PFM support and memo of the response, memo only if PFM is supported throughout |
| `RouteResponses.BuildInboundLegs` | pathfinder/router/pathfinder.go:459-518 | inbound legs follow the path to the broker, each with the denom the hop before delivers |
| `RouteResponses.BuildOutboundLegs` | pathfinder/router/pathfinder.go:561-599 | outbound legs follow the routes from the broker to ChainTo with the swapped amount; which token each names |
| `RouteResponses.OutboundSupportsPFM` | pathfinder/router/pathfinder.go:601-608 | true exactly if every outbound intermediate runs PFM |
| `RouteResponses.BuildInboundHops` | pathfinder/router/pathfinder.go:990-1009 | one hop per inbound route, addressed on its own chain except the last |
| `RouteResponses.BuildOutboundHops` | pathfinder/router/pathfinder.go:1129-1149 | one hop per outbound leg, the last addressed to the receiver |
| `RouteResponses.BuildSwapOnlyMemo` | pathfinder/router/pathfinder.go:718-785 | for any number of inbound hops, the forwards that remain after the user's own transfer, then the swap; with more than two hops the swap forwards over no channel |
| `RouteResponses.BuildSwapOnlyExecution` | pathfinder/router/pathfinder.go:671-806 | execution data exists exactly if broker, contract, operations and addresses are there, and then carries that memo, receiver and recovery address, and a call through the quoted pools for the minimum that the slippage leaves of the quote |
| `RouteResponses.BuildSwapAndForwardExecution` | pathfinder/router/pathfinder.go:810-984 | the same over the four shapes with outbound hops, whichever memo builder is chosen |
| `RouteResponses.BuildSmartContractExecution` | pathfinder/router/pathfinder.go:1013-1126 | the same for a direct contract call on the broker, with any number of outbound legs |
| `RouteResponses.CallIsRight` | pathfinder/router/pathfinder.go:690-765 | what the contract is told, field by field: venue, the quoted pools in order, the minimum, the timeout, where the proceeds go and whom to refund |
| `RouteResponses.MinimumIsRight` | pathfinder/router/pathfinder.go:696-703 | the minimum reads back as floor(quote * (10000 - slippage) / 10000) whenever the quote is a number and the product fits, 100 basis points standing for no slippage; a quote that is no number is the minimum itself |
| `RouteResponses.ContractMemoMissesAHop` | pathfinder/router/pathfinder.go:1087-1094 | with more than one outbound leg the contract call's memo would name one hop too few |
| `MultiHopRouting.FindMultiHopInboundRoute` | pathfinder/router/route_multihop.go:409-467 | an inbound route over one intermediate chain is found exactly if one exists |
| `MultiHopRouting.FindInbound` | pathfinder/router/route_multihop.go:264-295 | a direct inbound route is preferred, a two-hop one is the fallback, none only if neither exists |
| `MultiHopRouting.FindOutbound` | pathfinder/router/route_multihop.go:297-401 | a direct outbound route is preferred, the one through the token's origin chain is the fallback, none only if neither exists |
| `MultiHopRouting.FindSameChainSwapRoute` | pathfinder/router/route_multihop.go:88-126 | found exactly if both tokens are known on the broker; then executable |
| `MultiHopRouting.FindSwapOnlyRoute` | pathfinder/router/route_multihop.go:130-191 | found exactly if feasible; then executable |
| `MultiHopRouting.FindBrokerAsSourceRoute` | pathfinder/router/route_multihop.go:194-251 | found exactly if feasible; then executable |
| `MultiHopRouting.FindFullBrokerRoute` | pathfinder/router/route_multihop.go:256-405 | found exactly if feasible; then executable: routes connect ChainFrom to the broker to ChainTo, each hop allows what the one before delivers, at most two hops a side |
| `MultiHopRouting.FindThroughBroker` | pathfinder/router/route_multihop.go:42-80 | the four cases by where source and destination are, found exactly if feasible |
| `MultiHopRouting.FindMultiHopRoute` | pathfinder/router/route_multihop.go:18-85 | one executable route per feasible broker and none for the others, for one chain per broker |
| `PathFinding.BuildExecution` | pathfinder/router/pathfinder.go:611-657 | the builder chosen by shape gives execution data exactly when that is possible |
| `PathFinding.BuildBrokerRoute` | pathfinder/router/pathfinder.go:392-667 | fails exactly above 10000 bps; otherwise path, legs, quoted denoms and execution data are those of the found route, and the quoted input denom is the one the memo swaps |
| `PathFinding.BuildBrokerSwapResponse` | pathfinder/router/pathfinder.go:287-346 | answers exactly if the broker has a client and a quote and the slippage is allowed |
| `PathFinding.TryBrokers` | pathfinder/router/pathfinder.go:89-117 | some candidate is answered exactly if one of them can be |
| `PathFinding.FindPath` | pathfinder/router/pathfinder.go:51-118 | direct exactly if a direct route exists, then naming the source token as it is known on ChainFrom; else a swap-free route if one must be found, else a broker route; "impossible" only if no such path is certain and every feasible broker failed |
| `DenomResolution.CreateTokenMapping` | pathfinder/router/denom_resolver.go:300-320 | a listed denom is named as listed; another that is no voucher name, as the only token of that base denom and, after an "@", origin, if it is the only one; else as native |
| `DenomResolution.ResolveHumanReadableDenom` | pathfinder/router/denom_resolver.go:115-197 | finds the only matching token on the chain, and nothing if there is none or several |
| `BrokerTrips.MemoRouteExecutes` | pathfinder/router/pathfinder.go:671-984 | for all six shapes over IBC, on any network where this route's own channels lead where it says and its inbound denoms arrive as it says: running the compiled memo after the user's transfer visits the inbound channels in order, swaps once for the minimum that the request's slippage leaves of the quote, visits the outbound channels in order and ends with the receiver on ChainTo, if and only if the forwarding chains run PFM |
| `BrokerTrips.ContractRouteExecutes` | pathfinder/router/pathfinder.go:1013-1126 | the same, for the same minimum, for the two shapes that start on the broker, needing only the outbound channels and the source token's own name |
| `BrokerTrips.InboundTrip` | pathfinder/router/pathfinder.go:990-1009 | the packet reaches the contract with the quoted denom if the intermediate runs PFM, else rests after one transfer |
| `BrokerTrips.OutboundTrip` | pathfinder/router/pathfinder.go:872-960 | from the contract the proceeds reach ChainTo over the outbound channels, or stop where PFM is missing |
| `BrokerTrips.FinalDenomIsRequested` | pathfinder/router/route_multihop.go:256-405 | on a network where this route's outbound denoms arrive as its entries say, the receiver is paid in TokenToDenom; through an origin chain, exactly if the second route turns what the first delivers into it |
| `BrokerTrips.AgreeingNetworkServes` | pathfinder/router/route_multihop.go:256-405 | a network that agrees with the whole index meets the premises of the trip results for every route of it |
| `BrokerTrips.AgreeingNetworkDelivers` | pathfinder/router/route_multihop.go:256-405 | and that of `FinalDenomIsRequested` |
| `FinalDenoms.ReceiverGetsTokenToDenom` | pathfinder/router/route_multihop.go:297-401 | on an index built from a well-formed configuration whose routable tokens name native tokens of their origins, the receiver always ends with TokenToDenom, also over two hops through the origin |
| `FinalDenoms.Ics20NetworkArrives` | config_manager/enriched/route_builder.go:201-291 | a network that follows ICS-20 delivers the outbound denoms so, unless the broker lists the swapped token as re-forwarded |
| `FinalDenoms.HopArrives` | config_manager/enriched/route_builder.go:201-291 | on such a network a built route tells the truth about every token that is not re-forwarded |
| `Ics20Networks.Ics20NetworkExists` | config_manager/enriched/route_builder.go:313-320 | every well-formed configuration has a network that follows ICS-20 |
| `FinalDenoms.HomewardArrivesAsBase` | config_manager/enriched/route_builder.go:226-305 | a token on a built route to its origin chain arrives there under its base denom, which is native there |
| `FinalDenoms.OfferIsVoucher` | config_manager/enriched/route_builder.go:201-288 | a denom offered by a built route from o and known at its destination as a token of o is the voucher of that token's base denom |
| `BrokerTrips.ConfiguredNetworkAgrees` | pathfinder/router/index_build.go:22-105 | truthful configured routes make every indexed route truthful |
| `IndirectTrips.IndirectRouteExecutes` | pathfinder/router/pathfinder.go:153-284 | on any network where the path's own channels lead along it: one signed transfer with the returned memo takes every leg in order and ends with the receiver on ChainTo, in the denom the hops make of it, if and only if the intermediate chains run PFM |
| `IndirectTrips.IndirectRouteDelivers` | pathfinder/router/pathfinder.go:153-205 | that denom is TokenToDenom if every hop delivers the token and each chain on the path lists one denom of it |
| `IndirectDenoms.IndirectReceiverGetsTokenToDenom` | pathfinder/router/pathfinder.go:153-205 | from a well-formed configuration and on a network that follows ICS-20, the receiver of a swap-free route ends with TokenToDenom; only chains that list the token as re-forwarded need to be vouched for |
| `IndirectDenoms.UnforwardedTokenArrives` | pathfinder/router/pathfinder.go:153-205 | so it always does if no chain lists the token as re-forwarded |
| `IndirectDenoms.HopKeeps` | config_manager/enriched/route_builder.go:201-258 | a hop from a chain that does not re-forward the token delivers a denom that the next chain lists as the same token |
| `IndirectDenoms.WhereListed` | config_manager/enriched/route_builder.go:201-291 | such a chain lists the token under one denom: the native one at home, else the voucher over its own channel to the origin |
| `IndirectTrips.LegsNameWhatArrives` | pathfinder/router/pathfinder.go:165-200 | what arrives at a chain is then the denom the next leg names |
| `IndirectTrips.AgreeingNetworkServesPath` | pathfinder/router/pathfinder.go:153-232 | a network that agrees with the whole index serves every path found in it |
| `IndirectTrips.LegsExecute` | pathfinder/router/pathfinder.go:254-284 | the same for any list of connected legs |
| `RouteBuilding.RouteBuilder.BuildLookupMaps` | config_manager/enriched/route_builder.go:63-138 | tokens are split into native and routable ones per chain, and the channel map is that of connecting the registry entries in turn |
| `RouteBuilding.RouteBuilder.CategoriseTokens` | config_manager/enriched/route_builder.go:64-86 | one more chain is categorised, the others unchanged |
| `RouteBuilding.RouteBuilder.BuildChannelMap` | config_manager/enriched/route_builder.go:88-137 | entries are connected in turn, unknown chains skipped |
| `RouteBuilding.RouteBuilder.ConnectFirstUsable` | config_manager/enriched/route_builder.go:97-136 | only the first preferred active channel of an entry is used, in both directions |
| `RouteBuilding.Categories` | config_manager/enriched/route_builder.go:73-82 | a token is native or routable, by whether it names an origin chain |
| `RouteBuilding.ChannelMapInvolution` | config_manager/enriched/route_builder.go:89-137 | the channel map is an involution with channel and counterparty swapped, if and only if the registry's last usable connection of each chain to itself, if any, has one channel at both ends |
| `RouteBuilding.ChannelMapExact` | config_manager/enriched/route_builder.go:89-137 | between two chains the map holds the channel of the last registry entry that joins them, seen from each side with its own port, connection and channel; nothing if none does |
| `RouteBuilding.FirstUsableIs` | config_manager/enriched/route_builder.go:97-103 | the channel of an entry is its first preferred one whose status spells ACTIVE or LIVE in any case |
| `RouteBuilding.DiagonalIsLastSelfChannel` | config_manager/enriched/route_builder.go:97-136 | what the map holds between a chain and itself is that last connection |
| `RouteBuilding.TwoEndedSelfConnectionBreaksIt` | config_manager/enriched/route_builder.go:89-137 | a registry for which the map is not an involution |
| `RouteBuilding.NoSelfConnection` | config_manager/enriched/route_builder.go:89-137 | without self-connections in the registry it always is |
| `RouteBuilding.BuildAllowedTokensForRoute` | config_manager/enriched/route_builder.go:192-291 | every entry has one of the three reasons, every allowed token has its entry, and with distinct native denoms no source denom occurs twice; if no denoms coincide, a token of the sender is listed if and only if its list of destinations is empty, or contains the receiver and is not just "none", a native token of the receiver if and only if that holds for the sender, each with its own denoms, origin, symbol and decimals |
| `RouteBuilding.AddNativeTokens` | config_manager/enriched/route_builder.go:201-224 | the native part: complete, justified by the lists of destinations, recorded in seen |
| `RouteBuilding.AddUnwindTokens` | config_manager/enriched/route_builder.go:226-258 | the unwinding part, adding nothing already seen |
| `RouteBuilding.AddRoutableTokens` | config_manager/enriched/route_builder.go:260-288 | the re-forwarded part, adding nothing already seen |
| `Ics20.NativeEntryDelivers` | config_manager/enriched/route_builder.go:201-224 | the computed denom is the ICS-20 one of the one-hop trace if and only if both channel ends use one port |
| `Ics20.UnwindEntryDelivers` | config_manager/enriched/route_builder.go:226-258 | a returning voucher unwinds to its original denom |
| `Ics20.OutAndBack` | config_manager/enriched/route_builder.go:201-258 | what A's route to B delivers is what B's route to A takes back to the original denom, if and only if both ends use one port |
| `Ics20.UnequalPortsAreWrong` | config_manager/enriched/route_builder.go:201-258 | a channel with different ports at its ends, for which neither holds |
| `Ics20.ForwardedEntryExact` | config_manager/enriched/route_builder.go:294-311 | when a re-forwarded token's computed denom is the ICS-20 one, exactly: sent on over another channel, if both ends use one port and its path is its own hash; sent back over its own channel, if the wrapped text is, or hashes to, what is inside |
| `Ics20.ForwardedEntryIsWrong` | config_manager/enriched/route_builder.go:294-311 | with vouchers named "ibc/" and a digest, identifiers without slashes and a native denom that is no such name, it never is, save on the way to the origin chain |
| `Ics20.SentOnIsWrong` | config_manager/enriched/route_builder.go:294-311 | a token sent on over another channel whose computed denom is not the ICS-20 one |
| `Ics20.SentBackIsWrong` | config_manager/enriched/route_builder.go:294-311 | a token sent back over its own channel, not to its origin, that the code wraps and ICS-20 unwinds |
| `Ics20.HomewardEntryExact` | config_manager/enriched/route_builder.go:294-305 | a token sent to its origin chain is named as delivered if and only if it came straight from there over this channel |
| `Ics20.SentHomeIsWrong` | config_manager/enriched/route_builder.go:294-305 | a token sent home over another channel: promised as the native one, wrapped by ICS-20 |
| `ConfigPipeline.BuildRoutesForChain` | config_manager/enriched/route_builder.go:149-178 | one configured route per connected and configured chain, and no other |
| `ConfigPipeline.ConvertRoute` | config_manager/output/pathfinder_converter.go:85-115 | the route's token list becomes a map keyed by source denom |
| `ConfigPipeline.ConversionDropsNothing` | config_manager/output/pathfinder_converter.go:100-112 | with distinct source denoms the map has every entry under its own key |
| `ConfigPipeline.BuiltRouteCarries` | config_manager/output/pathfinder_converter.go:85-115 | what a converted route allows, over the configuration alone, if no denoms coincide: which tokens, and how each is described |
| `ConfigPipeline.ConvertNativeTokens` | config_manager/output/pathfinder_converter.go:57-71 | exactly the native tokens, each its own origin, in the order of denoms |
| `ConfigPipeline.BuildSortedRoutes` | config_manager/output/pathfinder_converter.go:73-80 | sorting and converting keeps one built route per connected chain, in the order of their chain ids |
| `ConfigPipeline.Convert` | config_manager/output/pathfinder_converter.go:21-42 | fails exactly without chains; otherwise every configured chain once, built and converted, with its flags unchanged, in the order of ids, each route carrying exactly the tokens that the configuration allows on it |
| `ConfigPipeline.SortStableSorts` | config_manager/output/pathfinder_converter.go:35-37 | the sort by a string key leaves no element before one with a smaller key |
| `ConfigPipeline.LessIsBefore` | config_manager/output/pathfinder_converter.go:35-37 | the order of keys is the lexicographic one |
| `ConfigPipeline.SortIsStable` | config_manager/output/pathfinder_converter.go:35-37 | elements with equal keys keep their order |
| `ConfigPipeline.BuildChain` | config_manager/output/pathfinder_converter.go:44-83 | a converted chain has the configured name and flags and lists exactly its native tokens, in the order of denoms, and its built routes, in the order of chain ids |
| `EndToEnd.NativeTokenReachesNeighbour` | pathfinder/router/pathfinder.go:51-118 | from a well-formed configuration, every answer for a native token allowed from A to a connected B is one transfer of that token, named by its own denom, from A to B over the configured channel and port, direct or as a one-hop route |
| `EndToEnd.AnswerFromConfig` | config_manager/output/pathfinder_converter.go:21-42 | building, converting, indexing and answering in one go: fails only without chains, and otherwise gives that single transfer whatever the brokers and addresses |
| `EndToEnd.AnswerFromRegistry` | config_manager/enriched/route_builder.go:49-138 | the same from the chain inputs and the registry on: if no registry entry is between a chain and itself, the channel map needs no premise of its own |
| `EndToEnd.NativeTokenOneHop` | pathfinder/router/route_indirect.go:32-60 | for such a request every answer of the search is the one-hop route |
| `TransferSteps.GenerateStepsFromResponse` | client_app/src/context/transferContext.tsx:531-699 | for every response Pathfinder can build, as many steps as announced in both modes, each sending over its leg's channel and port the leg's amount and denom with the response's memo, or the contract call, or swapping the quoted amount of the quoted denom; manual steps run contiguously from ChainFrom to ChainTo |
| `TransferSteps.GenerateIndirectSteps` | client_app/src/context/transferContext.tsx:560-599 | one multi-hop step with the first leg's data and the returned memo in smart mode, else one step per leg |
| `TransferSteps.GenerateBrokerSteps` | client_app/src/context/transferContext.tsx:601-695 | smart: one step with the contract call or the memo of the first inbound leg; manual: inbound, swap, outbound; no empty list is indexed |
| `TransferSteps.GenerateManualBrokerSteps` | client_app/src/context/transferContext.tsx:643-693 | exactly one swap step, on the broker, after the inbound steps |
| `TransferSteps.PushLegs` | client_app/src/context/transferContext.tsx:581-596 | one pending step per leg, numbered, each starting where the one before ended |
| `TransferSteps.SwapChainIsBroker` | client_app/src/context/transferContext.tsx:663-676 | the chain the swap step reads off the path is always the broker |
| `TransferSteps.PathListsEveryChain` | pathfinder/router/pathfinder.go:428-445 | the path lists every chain visited if and only if there is at most one outbound hop |
| `TransferSteps.ChainPathEnds` | client_app/src/context/transferContext.tsx:704-719 | the path kept for a response runs from ChainFrom to ChainTo |
| `StepTrips.SmartStepCarriesOutThePlan` | client_app/src/context/transferContext.tsx:605-641 | making the transfer, or contract call, of the one smart step of a broker route runs as planned, for the right minimum, if and only if the forwarding chains run PFM |
| `StepTrips.SmartStepTakesTheLegs` | client_app/src/context/transferContext.tsx:560-579 | making the transfer of the one smart step of a swap-free route takes every leg in order if and only if the intermediate chains run PFM |
| `StepTrips.ManualStepsSendThePlan` | client_app/src/context/transferContext.tsx:643-693 | the manual steps of a broker route are the planned transfers in, a swap of the quoted amount and denom on the broker, and the planned transfers out |
| `StepTrips.ManualStepsSendTheLegs` | client_app/src/context/transferContext.tsx:581-596 | the manual steps of a swap-free route are the transfers its memo would forward along |
| `FourChains.PathCanMissAChain` | pathfinder/router/pathfinder.go:428-445 | on an index built from a configuration of four chains, every route the router may return for one request visits four chains and lists three |
| `FourChains.AskFourChains` | pathfinder/router/route_multihop.go:18-85 | converting, indexing and searching that configuration does return such a route, and on a network that follows ICS-20, which exists, its outbound denoms arrive as the premises of `ReceiverGetsTokenToDenom` ask |
| `FourChains.ReceiverOnJuno` | pathfinder/router/route_multihop.go:297-401 | over those two outbound hops the receiver ends with TokenToDenom |
| `FourChains.AskSwapFree` | pathfinder/router/route_indirect.go:11-96 | a swap-free request on it is answered, and its receiver ends with TokenToDenom |
| `FourChains.FourChainsAreWellFormed` | config_manager/enriched/route_builder.go:49-138 | the configuration meets the premises of the results about configurations |
| `FourChains.NobleTokenIsAsked` | config_manager/enriched/route_builder.go:201-224 | requests as `NativeTokenReachesNeighbour` is about can be made on it |
| `TrackedRoutes.TrackedExactly` | client_app/src/context/taskProvider.tsx:468-531 | for a transfer whose every packet arrived and is shown: the listed path has a full chain of receipts if and only if there is at most one outbound hop, or ChainTo itself shows the packet that left the broker for the skipped chain |
| `TrackedRoutes.ArrivesUntracked` | client_app/src/context/taskProvider.tsx:468-531 | a network on which the four-chain transfer arrives and its listed path has no full chain of receipts |
| `TrackedRoutes.SkippedChainStopsTracking` | client_app/src/context/taskProvider.tsx:468-531 | whether or not the transfer arrives: with two outbound hops at most the inbound ones are confirmed if ChainTo never receives the packet that left the broker for the skipped chain |
| `TaskExecution.TaskProvider.ExecuteStepsWithTracking` | client_app/src/context/taskProvider.tsx:380-576 | completed steps stay a prefix, with index and row where the accepted writes put them; on success each remaining step has been submitted exactly once, in order; it succeeds whenever nothing goes wrong |
| `TaskExecution.TaskProvider.RunStep` | client_app/src/context/taskProvider.tsx:393-572 | one step is submitted once and completed exactly if sent and seen to arrive, with the hash it was sent under; the row is marked failed exactly if it was rejected or given up and the write accepted; a completed step is never submitted again |
| `TaskExecution.TaskProvider.TrackStep` | client_app/src/context/taskProvider.tsx:405-531 | whether and where arrival is looked for, and what comes of it; tracking touches only this step's status and the progress; the row ends with the last percentage whose write was accepted, from 0 on |
| `TaskExecution.TaskProvider.ReportHops` | client_app/src/context/taskProvider.tsx:491-511 | the last percentage is shown, and the row ends with the last one whose write is accepted; nothing else changes |
| `TaskExecution.TaskProvider.FinishStep` | client_app/src/context/taskProvider.tsx:533-550 | a finished step is completed in any case; the row follows exactly if the write is accepted, the index exactly if it is and the step is not the last |
| `TaskExecution.TaskProvider.RejectStep` | client_app/src/context/taskProvider.tsx:551-572 | a rejected step is marked failed with its reason and stays the next one; the row is marked failed exactly if the write is accepted |
| `TaskExecution.TaskProvider.GiveUpStep` | client_app/src/context/taskProvider.tsx:447-464 | a sent but untracked step fails the transfer and keeps its place; the row is marked failed exactly if the write is accepted |
| `TaskExecution.TaskProvider.SettleStep` | client_app/src/context/taskProvider.tsx:447-550 | a sent step is finished if tracked, given up if not, and left as it is if tracking throws |
| `TaskExecution.TaskProvider.ExecuteTransfer` | client_app/src/context/taskProvider.tsx:583-673 | while another transfer runs, changes nothing, except that an unsuccessful response fails the one shown; otherwise ends done or failed with the lock released; done only with every step submitted once and a successful row; done if nothing goes wrong; unless a write is refused or tracking throws, the row says how it ended; path and steps are those of the response |
| `TaskExecution.TaskProvider.RetryStep` | client_app/src/context/taskProvider.tsx:687-763 | from any failure keeps everything on track, puts the row in progress again, and finishes the transfer once things go well; unless a write is refused, the row says how it ended |
| `TaskExecution.TaskProvider.RecordFailure` | client_app/src/context/taskProvider.tsx:745-757 | a retry that threw marks the row failed exactly if the write is accepted |
| `TaskExecution.TaskProvider.HandleRetry` | client_app/src/components/ui/tracking/transferTracker.tsx:106-118 | the retry button acts only on a failed step, finishes the transfer once things go well, and never makes a step be sent twice |
| `TaskExecution.LagExactly` | client_app/src/context/taskProvider.tsx:533-550 | the step index is at the first uncompleted step exactly if every write for a completed step before the last was accepted; the row exactly if the last such write, or the final one, was |
| `TaskExecution.LagBlocksRetry` | client_app/src/components/ui/tracking/transferTracker.tsx:113-118 | once the index lags, the retry button is never offered |
| `TaskExecution.FirstWriteRefused` | client_app/src/context/taskProvider.tsx:533-550 | a run in which index and row lag |
| `TaskExecution.ThrowLeavesRow` | client_app/src/context/taskProvider.tsx:664-671 | a run in which tracking throws: the transfer has failed and its row is still in progress |
| `TaskExecution.RunTransfer` | client_app/src/context/taskProvider.tsx:583-763 | after any number of retries: index and row lag exactly as the refused writes say; the row's status is that of the last accepted status write, in progress before any; done only with every step completed by a submission of its own and a successful row; retried by the button alone, no step is ever sent twice and the row is successful exactly if the final write was accepted; unless a write is refused or tracking throws, the row says how the transfer ended; path and steps are still those of the response |
| `IbcTracking.BuildQueryStrategies` | client_app/src/hooks/ibcTracking/util.ts:31-68 | exactly one strategy: data, sequence and source channel if that fits into 450 characters, else data and sequence, else sequence, channels and timeout |
| `IbcTracking.MatchesExactly` | client_app/src/hooks/ibcTracking/util.ts:242-257 | a transaction matches exactly if its first recv_packet event has the packet's data, sequence and channels and it is at most ten seconds earlier than the source |
| `IbcTracking.PacketIsRead` | client_app/src/hooks/ibcTracking/util.ts:71-85 | an event that lists a packet's attributes, in any order, is read as that packet |
| `IbcTracking.QueryIbcReceive` | client_app/src/hooks/ibcTracking/util.ts:157-235 | a transaction is returned exactly if the chain shows a matching, recent enough receive first |
| `IbcTracking.WaitForConfirmation` | client_app/src/hooks/useIbcTracking.ts:52-163 | succeeds exactly if the first thing polling finds within maxAttempts is a receive with code 0 |
| `IbcTracking.TrackHop` | client_app/src/hooks/useIbcTracking.ts:284-320 | one hop extends the chain of receipts, polling from where the hop before ended, or says why it cannot |
| `IbcTracking.FetchSource` | client_app/src/hooks/useIbcTracking.ts:261-276 | the first answer that sent a packet, asked for at most maxAttempts + 1 times |
| `IbcTracking.TrackSmartTransferMultiHop` | client_app/src/hooks/useIbcTracking.ts:249-321 | success on n chains rests on n-1 successful receives, each of the packet the one before sent; it comes if and only if there are such; failure is at a hop that, polled from where the one before ended, cannot be continued; completed counts go 1, 2, ... and reach n only on success; questions are bounded |
| `IbcTracking.StuckHasNoFullChain` | client_app/src/hooks/useIbcTracking.ts:284-320 | a transfer reported stuck has no full chain of receipts |
| `IbcTracking.ChainsAgree` | client_app/src/hooks/useIbcTracking.ts:284-320 | there is only one chain of receipts |
| `IbcTracking.ReceiptReceives` | client_app/src/hooks/ibcTracking/util.ts:242-257 | each receipt matches its send_packet in data, sequence and both channels, and is at most ten seconds earlier |
| `EndpointScoring.GetMostCommonValue` | config_manager/validator/validator.go:23-37 | a key with a greatest positive count, for every range order |
| `EndpointScoring.BuildTracker` | config_manager/validator/validator.go:70-115 | the tallies count exactly the valid endpoints voting for each value |
| `EndpointScoring.HeaderFields` | config_manager/validator/validator.go:157-172 | the ten checks tell any two headers apart |
| `EndpointScoring.BuildConsensus` | config_manager/validator/validator.go:117-135 | at every voted height each field's consensus is a most frequent vote |
| `EndpointScoring.MajorityIsConsensus` | config_manager/validator/validator.go:117-135 | if more than half of the voters agree on a block, the consensus is theirs |
| `EndpointScoring.ScoreBlock` | config_manager/validator/validator.go:151-181 | ten points off per mismatched check |
| `EndpointScoring.ScoreEndpoint` | config_manager/validator/validator.go:138-191 | ends with start - 10 * (missing + mismatched), and valid exactly from 60 up |
| `EndpointScoring.EndpointTable.ValidateBlockData` | config_manager/validator/validator.go:63-192 | every valid endpoint is so scored against one consensus, the others untouched |
| `EndpointScoring.AgreeingEndpointIsSafe` | config_manager/validator/validator.go:63-192 | an endpoint with the majority's blocks loses points only for missing ones, and stays valid exactly while it can spare them |
| `PromiseMutex.Mutex.Enter` | client_app/src/lib/mutex/mutex.ts:7-16 | the caller takes a free mutex or is parked last |
| `PromiseMutex.Mutex.Unlock` | client_app/src/lib/mutex/mutex.ts:18-29 | the oldest parked call is woken and the mutex stays taken, or it becomes free |
| `PromiseMutex.StepKeeps` | client_app/src/lib/mutex/mutex.ts:7-29 | every call, unlock or resumption keeps: the only owner is the last served, and calls made are those served then those parked |
| `PromiseMutex.AtMostOneOwner` | client_app/src/lib/mutex/mutex.ts:7-29 | after every interleaving at most one owner, counting a woken call; isLocked is false exactly if nobody owns; a parked call implies an owner |
| `PromiseMutex.ServedInCallingOrder` | client_app/src/lib/mutex/mutex.ts:18-29 | hand-off is first come, first served |
| `PromiseMutex.WaiterOwnsAfterItsTurn` | client_app/src/lib/mutex/mutex.ts:18-29 | the call parked at position k owns after exactly k + 1 unlocks, not before, and until the next |
| `PromiseMutex.StrayUnlockAdmitsTwo` | client_app/src/lib/mutex/mutex.ts:18-29 | an unlock by someone who does not own lets a second owner in |
| `LatestRequest.Query.Fetch` | client_app/src/hooks/usePathfinderQuery.ts:118-150 | a complete request gets a fresh id and starts loading; an incomplete one only clears the data |
| `LatestRequest.Query.Settle` | client_app/src/hooks/usePathfinderQuery.ts:165-194 | only the newest request's answer is written, returned and ends loading |
| `LatestRequest.StepKeeps` | client_app/src/hooks/usePathfinderQuery.ts:118-197 | issues, resets and answers in any order keep the protocol's invariant |
| `LatestRequest.LatestRequestWins` | client_app/src/hooks/usePathfinderQuery.ts:118-197 | after every run: loading exactly while the newest request is out, written ids only go up, and once it is answered what is shown is its answer or nothing |
| `LatestRequest.OnlyNewestIsWritten` | client_app/src/hooks/usePathfinderQuery.ts:167-193 | an answer changes the screen if and only if it is the newest request's |
| `LatestRequest.ResetDoesNotCancel` | client_app/src/hooks/usePathfinderQuery.ts:122-146 | after a reset, data comes back if and only if the newest request then succeeds |
| `LatestRequest.ClearedFormFillsAgain` | client_app/src/hooks/usePathfinderQuery.ts:122-146 | a run in which the form is cleared and data comes back |
| `Amounts.PrintIsRead` | pathfinder/cmd/main.go:198-218 | decimal printing has no leading zero and reads back |
| `Amounts.WriteDigits` | pathfinder/cmd/main.go:208-212 | the digit loop fills the end of the buffer with the number and never leaves it |
| `Amounts.Itoa` | pathfinder/cmd/main.go:198-218 | prints the number within 20 bytes; a bare sign for the least int64 |
| `Amounts.ItoaRoundTrip` | pathfinder/cmd/main.go:198-218 | what is printed reads back if and only if it is not the least int64 |
| `Amounts.MinOutputExact` | pathfinder/router/brokers/slippage.go:11-22 | the minimum is floor(expected * (10000 - bps) / 10000) if and only if the product fits in an int64 |
| `Amounts.ParseInt64Reads` | pathfinder/router/brokers/slippage.go:13-16 | which quotes are numbers, and which: digits with at most one sign, in range |
| `Amounts.MinOutputOverflows` | pathfinder/router/brokers/slippage.go:11-22 | an expected output for which it is not |
| `Amounts.MinOutputBounds` | pathfinder/router/brokers/slippage.go:11-22 | it lies between 0 and the expected output, grows with it and shrinks with the slippage |
| `Amounts.SuggestionCoversShortfall` | client_app/src/lib/utils.ts:165-192 | the suggested slippage would have accepted the amount that fell short |
| `Amounts.SuggestionIsTight` | client_app/src/lib/utils.ts:165-192 | it is 1%, or at most 51 basis points more than would just do |
| `Amounts.HumanToBaseUnitsTruncates` | client_app/src/lib/utils.ts:24-41 | an amount i.f with any number of decimals becomes the canonical decimal of floor(i.f * 10^d) |
| `Amounts.HumanToBaseUnitsMonotone` | client_app/src/lib/utils.ts:24-41 | a larger amount never gives fewer base units |

## Left out

- JSON text and escaping: memos are a datatype, and the recursive memo is compared by its structure.
- Bech32 (pathfinder/router/address.go): address conversion is an arbitrary partial function per chain.
- The broker client, its retries and failover: a quote is an arbitrary function of broker, denoms and amount.
- Clocks and timeouts: one arbitrary timeout value in memos; wall-clock limits of polling are the arbitrary interruptions.
- `InferTokenToDenom` and the other queries of the denom resolver (pathfinder/router/denom_resolver.go), and the IBC path it reports.
- RouteIndexing.RouteIndex.BuildIndex: specified from an empty index, as it is called; a second build on the same object is not described.
- MultiHopRouting.FindMultiHopRoute: completeness is for one chain per broker, since with several the broker's chain is whichever the map range meets first.
- IndirectRouting.FindIndirectRoute: with several denoms of one origin on a chain the token choice is arbitrary, so completeness is for paths allowed under every choice; the exact result needs the choice to be unique.
- PathFinding.FindPath: error texts are not distinguished, and the order in which brokers are asked is arbitrary.
- Ports on the wire after the swap: the contract call names only a channel, so the machine sends on "transfer".
- `slices.SortStableFunc` in the converter is an insertion sort by character code.
- ToUpper in the status comparison is modelled for ASCII letters only.
- `GetTokenFromChain` and `BuildIBCTokensForChain`, icons, endpoints and the rest of the enriched output: they do not affect routing.
- Tallies of block hash, height and time in the endpoint tracker: no check reads them.
- Amounts.HumanToBaseUnitsTruncates: for decimal digits with at most one dot; BigInt's hexadecimal, octal, binary and blank forms and text with signs or several dots are not described.
- Amounts.SuggestionCoversShortfall: the floating-point percentage is modelled as off by less than one basis point after rounding up; the regular expressions are not modelled.
- Form-state actions of the reducer, React rendering, debouncing, staleness and automatic refresh.
- TaskExecution.TaskProvider.RetryStep: retries are at the current step index, as the user interface does, and never overlap a running transfer; step descriptions, amounts shown and wallet signing are not modelled.
- TaskExecution.TaskProvider.ReportHops: the per-hop progress writes, which the source does not wait for, are made in order.
- Ics20.ForwardedEntryExact: nothing is stated for two different ports of which one holds a slash, which no ICS identifier does.
- IndirectDenoms.IndirectReceiverGetsTokenToDenom: what a leg that re-forwards the token delivers is a premise, since the configuration can name it wrongly.
- Keplr, explorers, generated protocol code, logging and telemetry.
