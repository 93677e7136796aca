# ZeroSock: a verified model of its control plane

ZeroSock accepts SOCKS5 clients, maps the requested host to a pool of backends and relays the connection. This
project models the parts that decide *where* a connection goes and *what is counted* on the way, and proves
properties of them in Dafny 4.11. `dafny verify dfyconfig.toml` checks everything.

How the files follow the program:

- `Text`, `Hosts`, `Addresses`: string operations, the host normal form, IPv4 texts and "host:port" keys.
- `Scan`, `Balance`, `Router`, `RouterLaws`, `Picking`: a backend pool three times over: as the arithmetic of one
  scan, as objects with arrays and a 64-bit ticket counter (`Router.Pool`, `Router.Router`), and as a step system
  in which every atomic add, load and swap is one step. `RouterLaws` says what `New` builds and shows that health
  tracking refines a plain table of booleans.
- `Wire`, `WireLaws`, `WireBytes`: the SOCKS5 frames of RFC 1928, sections 3 to 6, read off a connection whose
  input comes in pieces and whose writes may stop part-way. `WireBytes` gives all of it in literal bytes.
- `Sessions`, `Accounts`, `AccountLaws`, `Decisions`, `RoutingSafety`, `GaugeOverrun`: the running server as a step
  system of the accept loop and any number of sessions, together with router swaps and health updates. `Decisions`
  says which way each step goes. `Metrics`, `Labels` and `CounterLaws` are the collector and its label keys.
- `Config`, `ConfigLaws`, `ConfigFields`, `Health`, `Reload`, `ReloadLaws`, `ReloadDecisions`: the configuration
  compiler, the health checker, and hot reload, first as methods on objects and then as steps of the whole process.
- `Discovery`, `EditLaws`, `DiscoveryLaws`, `DiscoveredRequests`: discovery of unknown hosts, from the edit of the
  file through the reload that reads it to the retried request.

Imperative code is modelled as methods that are proved equal to a specification function; the laws are proved
about that function. The order in which Go visits a map is an explicit argument (`order`, or the `Visits` of a
reload) and the theorems hold for every order. Names are resolved by an arbitrary function; dial results, probe
outcomes, discovery answers and copy errors are arbitrary events.

Main results, hardest first:

1. Conservation: in every state of every interleaving, each counter, both semaphores and the wait group are
   exactly the sum of what the sessions and the accept loop are accountable for (`Accounts.RunKeepsInvariant`).
   The balance sheet at rest, the admission limits and the meaning of an empty wait group follow.
2. Reload: in every run of successful and failed reloads, probes, picks and shutdown, the configuration, the
   installed router and the one running checker come from the same last successful load; a checker that was
   replaced never again changes the installed router; every backend that can be picked is being probed.
3. Routing safety: whatever a session dials was alive at the load that chose it, in a pool of its own route host,
   in a router that was installed when `DialRoute` read it.
4. The exact load law of the round robin, for sequential and for concurrent callers, and the exact wrap-around
   condition under which a scan covers every backend.
5. The wire parser accepts exactly the encodings of supported requests and leaves exactly the bytes behind the
   frame to the relay.
6. When a file loads, what router and checker get from it, when every probe update succeeds, and which requests
   find a route, each as an if-and-only-if.
7. Which way every step of a run goes: when a connection is refused, when a dial is, when a host is discovered, what
   the client is told byte by byte, and what each ending is counted as, told without naming the step functions
   (`Decisions`, `WireBytes`).

Where the code does not do what one would expect, the exact condition under which it does is proved:

- a scan misses backends exactly when the 64-bit addition wraps and n does not divide 2^64
  (`Scan.ScanIsPermutationIff`, `Scan.NeverFalselyEmptyIff`);
- marking an address dead takes it out of rotation exactly when its pool lists it once (`RouterLaws.MarkedDeadIff`);
- hosts that share a group agree on an address after a probe exactly when the other reports about it concur
  (`Health.AgreeInEveryInterleavingIff`, `Health.AgreeInEveryOrderIff`);
- `normalizeHost` needs several rounds for names ending in dots or in a dot after white space, and the layers
  apply it a different number of times (`Hosts.NormalExactlyWhenTailClean`, `ConfigLaws.OwnNameRoutedIff`,
  `ConfigLaws.IndexHitRoutedIff`);
- the reverse index can name a host whose pool lacks the address (`RouterLaws.IndexSoundIff`);
- probes fail when groups share a trimmed name or host keys share a pool; they never do exactly when whatever is
  probed for a host is in the list of every host that shares its pool (`ConfigLaws.ProbesSucceedIff`);
- the fallback name of a discovered group can overwrite a group; the other hosts keep their addresses exactly when
  none of them is routed to it, or has the new addresses anyway (`DiscoveryLaws.HostsKeptIff`,
  `DiscoveryLaws.GroupsKeptIff`, with `DiscoveryLaws.FallbackNameCollides` as an input that overwrites);
- a discovered name is found on the retry exactly when it is not the text of an IP address and three rounds of
  normalisation settle it (`DiscoveryLaws.RetriedNameFoundIff`);
- a discovery spoils the file exactly when there is 0.0.0.0 among the addresses behind the host, or the key it is
  filed under normalises away, or the trimmed group name is no group (`DiscoveredRequests.EditedFileLoadsIff`,
  `DiscoveredRequests.DiscoverySucceedsIff`, with `DiscoveredRequests.SpacedNameSpoilsFile` as an input of the
  last kind);
- discoveries of different hosts lose routes exactly when one saves between another's load and save
  (`DiscoveryLaws.NothingLostIff`, with `DiscoveryLaws.OverlapLosesARoute` as a run that does it), and leave routes
  and groups unchanged exactly when, besides, no chosen group name is taken by another group
  (`DiscoveryLaws.EverythingKeptIff`);
- a duration is the milliseconds of the file exactly up to 9223372036854 of them; beyond, the 64-bit product wraps,
  and a group with both settings too large passes the check with a negative interval (`ConfigFields.LastsAsSaidIff`,
  `ConfigFields.OverlongIntervalLoads`);
- the active gauge exceeds the connection limit exactly when more sessions are draining than tokens are free
  (`AccountLaws.GaugeExceedsIff`), and there is no bound on it (`GaugeOverrun.GaugeIsUnbounded`);
- a label key parses back exactly when no value has a comma or ends in white space (`Labels.CodecIff`).

Where code and documentation differ the model follows the code: the repository's README says that a host unknown to
the routes is discovered and that subsequent requests use its route, which fails for the names and addresses listed
above. The documentation does not say whether the shutdown grace period is kept until a restart; the code takes it
over on a reload.

## Model

| member | source | states |
|---|---|---|
| Hosts.NormalExactlyWhenTailClean | internal/router/pool.go:129-133 | one round of normalisation settles a host exactly when the outcome ends in neither a dot nor white space |
| Hosts.TwoRoundsKeepIff | internal/socks/handler.go:66 | a once-normalised name survives the two rounds of DialRoute and Pick exactly when its tail is clean |
| Hosts.FixpointIffCleanTail | internal/config/config.go:330-334 | a lower-case text without leading space is a fixpoint exactly when its tail is clean; otherwise a round shortens it |
| Hosts.CanonicalStep | internal/socks/handler.go:245-249 | a round never changes the form the iteration ends in |
| Hosts.IterationConverges | internal/socks/handler.go:66 | after as many rounds as the name has characters every layer's key is the same fixpoint |
| Hosts.NoCapitals | internal/router/pool.go:129-133 | no normalised host holds a letter from 'A' to 'Z' |
| Hosts.CaseIsFolded | internal/router/pool.go:129-133 | texts that differ only where one has a capital and the other the small letter 32 above have one normal form |
| Hosts.NormalizedCharacters | internal/router/pool.go:129-133 | a normalised host, character by character: what lies between the outer white space, less one final dot, capitals moved up by 32 |
| Addresses.QuadPortInjective | internal/socks/handler.go:123 | the text a.b.c.d:p determines the four bytes and the port |
| Addresses.HostPortInjective | cmd/zerosock/discovery.go:38 | the discovery guard's key determines host and port |
| Addresses.DottedQuadReads | internal/socks/protocol.go:101 | an IPv4 text is the four bytes as decimal numerals, first to last, with dots between |
| Addresses.AddressReads | internal/config/config.go:249 | host, colon and the port as a decimal numeral; an IPv6 host stands in brackets |
| Scan.SlotIsCyclic | internal/router/pool.go:85 | without a seam the scan's machine arithmetic is the plain cyclic walk |
| Scan.SeamSkips | internal/router/pool.go:84-86 | across a seam a named backend is never looked at |
| Scan.ScanIsPermutationIff | internal/router/pool.go:82-86 | the n scanned indices are a permutation iff start <= 2^64 - n or n divides 2^64 |
| Scan.NeverFalselyEmptyIff | internal/router/pool.go:84-92 | "no alive backends" is never false, whatever the flags, iff the scan has no seam |
| Balance.LoadLaw | internal/router/pool.go:76-93 | over k whole rounds a dead backend is returned 0 times, an alive one k times for itself and k for each dead one just before it |
| Balance.LoadsSumUp | internal/router/pool.go:76-93 | with a live backend the loads of all backends add up to the number of picks |
| Router.Pool.TakeTicket | internal/router/pool.go:83 | returns the old counter and advances it by one modulo 2^64 |
| Router.Pool.FirstAlive | internal/router/pool.go:84-92 | the scan loop returns the first alive backend met from the ticket on, or none if every round met a dead one |
| Router.Pool.Swap | internal/router/pool.go:105-110 | sets one flag, returns the old one, leaves the rest |
| Router.New | internal/router/pool.go:36-66 | fails iff there are no routes, a host normalises to nothing or has no backends; else fresh pools equal to the specification |
| Router.Router.HostForBackendAddr | internal/router/pool.go:71-74 | looks the address up in the reverse index |
| Router.Router.Pick | internal/router/pool.go:76-93 | result and new state are those of the specification: one ticket, the first alive backend from there, all else unchanged |
| Router.Router.SetBackendAlive | internal/router/pool.go:95-113 | touches the flag of the first entry with the address and reports whether it flipped; unknown host or address is an error that changes nothing |
| RouterLaws.BuildPools | internal/router/pool.go:43-63 | each host's pool is the last visited route of that normal form |
| RouterLaws.BuildIndex | internal/router/pool.go:53-60 | each address is indexed to the first visited route that lists it |
| RouterLaws.IndexSoundIff | internal/router/pool.go:41-66 | in every visiting order each index entry leads to a pool holding the address, iff hosts with one normal form list the same addresses |
| RouterLaws.RouterMirrorsRoutes | internal/router/pool.go:36-66 | with distinct normal forms pools are the routes and the index's domain is the union of all addresses |
| RouterLaws.BuiltAllSet | internal/router/pool.go:53-62 | a router just built has all flags set, so its health table starts all true |
| RouterLaws.StepRefines | internal/router/pool.go:76-113 | one Pick or SetBackendAlive is one step of a plain (host, address) table, and its reply is what the table says; changed iff flipped |
| RouterLaws.RunRefines | internal/router/pool.go:76-113 | over any sequence of operations the flags are the table's entries |
| RouterLaws.MarkedDeadIff | internal/router/pool.go:101-111 | however a router that started with all flags set was used: marking an address dead takes it out of the pool's rotation iff the pool lists it once |
| RouterLaws.PickLoadLaw | internal/router/pool.go:76-93 | the load law for Pick itself, by address |
| RouterLaws.PickTouches | internal/router/pool.go:76-93 | a pick, even one that fails, moves its own pool's counter on by one modulo 2^64 and touches nothing else; it returns the first live backend from the counter on and fails when all rounds meet dead ones |
| RouterLaws.SetTouches | internal/router/pool.go:95-113 | an update sets the flag of the first entry with the address and touches nothing else, the ticket counter included |
| RouterLaws.CaseDoesNotMatter | internal/router/pool.go:76-113 | hosts that differ only in case are one host to Pick and to SetBackendAlive |
| RouterLaws.PickedInAnyCase | internal/router/pool.go:76-80 | a host alone under its normal form is picked under any capitalisation, its first backend first |
| Picking.ScansAreHonest | internal/router/pool.go:82-92 | every verdict of a concurrent scan rests on loads made by that scan |
| Picking.FailureSawAllDead | internal/router/pool.go:82-92 | a failing concurrent Pick saw each backend dead at a step of its own scan |
| Picking.NoFalseNoAlive | internal/router/pool.go:82-92 | if some backend stays alive during the scan, the Pick does not fail, whatever else flips |
| Picking.SuccessSawAlive | internal/router/pool.go:87-89 | a returned backend was alive at the load that chose it |
| Picking.TicketsAreContiguous | internal/router/pool.go:83 | in every interleaving tickets are consecutive counter values, one for each picker |
| Picking.ScheduleIndependent | internal/router/pool.go:83-89 | with steady flags every interleaving gives each ticket the sequential result |
| Picking.ConcurrentLoadLaw | internal/router/pool.go:76-93 | the load law for k*n interleaved picks |
| Wire.Conn.ReadFull | internal/socks/protocol.go:42 | takes exactly n bytes however they were cut, or the whole rest if there are fewer |
| Wire.HandleHandshake | internal/socks/protocol.go:40-74 | bytes consumed, bytes written and verdict are those of the specification |
| Wire.ReadRequest | internal/socks/protocol.go:76-134 | bytes consumed, reply written and parsed request or error are those of the specification |
| Wire.WriteFailureReply | internal/socks/protocol.go:136-140 | writes the 10-byte failure frame, or a first part of it |
| Wire.WriteSuccessReply | internal/socks/protocol.go:142-162 | writes the 10-byte frame with the local IPv4 address and port, or a failure frame for a non-TCP address |
| Wire.ServeControl | internal/socks/handler.go:103-173 | the client-side traffic up to the relay is that of the specification |
| WireLaws.HandshakeIff | internal/socks/protocol.go:40-74 | the handshake succeeds iff the input starts with a version 5 greeting offering "no authentication" and the answer can be written |
| WireLaws.ParseEncoded | internal/socks/protocol.go:76-134 | parsing an encoded CONNECT request returns it and leaves exactly the trailing bytes |
| WireLaws.AcceptedIsEncoded | internal/socks/protocol.go:76-134 | every accepted input is the encoding of a supported request followed by what is left, and nothing was written |
| WireLaws.FramesArePrefixFree | internal/socks/protocol.go:76-134 | one stream starts with at most one request frame |
| WireLaws.RequestOutput | internal/socks/protocol.go:76-134 | each reading error is answered with its RFC 1928 reply code or with silence, and a good request with nothing |
| WireLaws.SessionOutput | internal/socks/handler.go:103-182 | for every client stream the output is a first part of one method selection and at most one reply, the reply only after "no authentication" |
| WireLaws.RelayGetsTheRest | internal/socks/handler.go:165-182 | the relay starts only after a full selection and reply, and gets exactly the bytes after the request frame |
| WireLaws.ReplyReportsSuccessIff | internal/socks/protocol.go:142-162 | that reply reports success iff the local address is a TCP address, and carries it |
| WireLaws.WellFormedSessionRelays | internal/socks/handler.go:103-182 | a well-formed session reaches the relay iff a backend was connected |
| WireLaws.CuttingIsInvisible | internal/socks/protocol.go:42-128 | cutting any piece of the client's stream in two changes neither the connection's value nor anything the control phase consumes, writes or decides |
| WireLaws.SameStreamIff | internal/socks/protocol.go:42-128 | two lists of pieces give the control phase the same value to start from iff they are cuttings of one stream |
| WireBytes.FrameBytes | internal/socks/protocol.go:76-134 | an encoded request byte by byte, and the type, host text and port it stands for |
| WireBytes.HandshakeErrors | internal/socks/protocol.go:40-74 | which greeting meets which error, each as an iff |
| WireBytes.HandshakeBytes | internal/socks/protocol.go:67-72 | 05 ff for a client without an acceptable method, 05 00 for one with, silence for a bad or short greeting |
| WireBytes.RequestErrors | internal/socks/protocol.go:76-122 | which request header meets which error, each as an iff |
| WireBytes.ReplyBytes | internal/socks/protocol.go:82-132 | the frame of each answered error in literal bytes, and of no other |
| WireBytes.RequestBytes | internal/socks/protocol.go:82-132 | the ten bytes with code 7, 1 or 8 that each error is answered with, and nothing for the rest |
| WireBytes.RefusalBytes | internal/socks/handler.go:135-158 | a client that is turned away is told 05 04 00 01 and six zeros |
| WireBytes.SuccessBytes | internal/socks/protocol.go:142-162 | a connected one is told 05 00 00 01, the local address (zeros if it has no 4-byte form) and the port, high byte first; without a TCP address it is told code 1 |
| WireBytes.SessionBytes | internal/socks/handler.go:103-173 | the whole transcript of a control phase whose output is taken in full, byte by byte, by how it ended |
| WireBytes.ToldSuccessIff | internal/socks/handler.go:103-173 | over a whole session such a client gets a reply with second byte 0 iff the request was accepted and the decision was a connection with a TCP address |
| Labels.ParseKVLabels | internal/metrics/collector.go:278-289 | the loop computes the fold of the parts split at commas |
| Labels.CodecIff | internal/metrics/collector.go:278-289 | parsing a built key returns the labels iff no value has a comma or ends in white space |
| Labels.KeysInjective | internal/metrics/collector.go:103 | distinct label tuples never share a counter, whatever the first value holds, if the later values have no comma |
| AccountLaws.OutcomesKeptApart | internal/metrics/collector.go:90-107 | the outcome keys that sessions record tell client host, backend and result apart, up to the stand-ins for empty texts |
| AccountLaws.FailuresKeptApart | internal/metrics/collector.go:118-144 | so do the keys of route and dial failures, whatever the client's host text holds |
| Metrics.RecordAddsWorth | internal/metrics/collector.go:49-161 | each collector call changes each column, summed over labels, by exactly its worth |
| CounterLaws.CallLands | internal/metrics/collector.go:49-161 | each collector call adds one to the counter of its own kind and labels and nothing to any other counter of any label |
| CounterLaws.ServedText | internal/metrics/collector.go:90-107 | the key of an outcome as text, with the stand-ins for empty values |
| CounterLaws.FailureText | internal/metrics/collector.go:122-140 | the key of a route or dial failure as text |
| CounterLaws.ServedKeyReads | internal/metrics/collector.go:278-289 | parsing an outcome's key gives host, backend and result back under those names |
| CounterLaws.FailureKeyReads | internal/metrics/collector.go:278-289 | parsing a failure's key gives host and reason back under those names |
| Metrics.Collector.IncConnectionAccepted | internal/metrics/collector.go:58-64 | counts the connection and raises the gauge; every other column keeps its reading |
| Metrics.Collector.IncRequestByBackend | internal/metrics/collector.go:90-107 | bumps the counter of one host, backend and result, with the defaults for empty texts; only the sum of outcomes changes, by one |
| Sessions.StepSound | internal/socks/handler.go:96-193 | no step leaves a goroutine without a next step: pools read earlier stay valid across swaps |
| Sessions.RunContinues | internal/socks/server.go:76-110 | every run continues with every enabled step |
| Accounts.SessionConserves | internal/socks/handler.go:96-193 | one session step changes every counter, semaphore and the wait group by the change of that session's share |
| Accounts.AcceptorConserves | internal/socks/server.go:76-110 | the same for the accept loop |
| Accounts.TurnConsistent | internal/socks/handler.go:121-163 | rounds, discoveries and connections of a session stay within their bounds at every step |
| Accounts.RunKeepsInvariant | internal/socks/server.go:76-154 | the conservation law for all quantities, and the limits, in every state of every run |
| AccountLaws.LedgerBalances | internal/socks/handler.go:96-193 | with all sessions over, syn = errors + sessions, established = fin + rst, requests = dials, route failures = dial-stage errors, and nothing is held |
| AccountLaws.AdmissionHolds | internal/socks/server.go:95-154 | tokens and dial slots are held by exactly the sessions entitled to them and within the limits; the gauge equals the tokens, plus the sessions draining, less the connection admitted but not yet counted |
| AccountLaws.GaugeExceedsIff | internal/socks/server.go:95-149 | the gauge reads more than max_connections iff more sessions are draining than tokens are free (less the one being counted) |
| AccountLaws.AttemptsAreBounded | internal/socks/handler.go:121-163 | at most two rounds, one discovery and one backend connection a session; a relaying session has one |
| AccountLaws.WaitIsTrustworthy | internal/socks/server.go:125-141 | once Serve has returned the wait group is empty iff no session is left, and none comes later |
| AccountLaws.ResetsAreNoErrors | internal/socks/handler.go:195-243 | directions that end well or by a reset make a success, counted as rst if there was a reset |
| Decisions.AdmissionDecides | internal/socks/server.go:95-106 | in every run an arrived connection is refused iff there is a limit and as many sessions as it allows hold a connection; else it is admitted, with exactly accepted, active and syn to count |
| Decisions.AdmittedIsServed | internal/socks/server.go:105-108 | an admitted and counted connection becomes one session, at its handshake |
| Decisions.AcceptDecides | internal/socks/server.go:76-83 | the accept loop goes on with the next connection, or ends for good when accepting fails |
| Decisions.GreetingDecides | internal/socks/handler.go:103-106 | a session goes on to its request iff the handshake succeeded; else it ends as a handshake error |
| Decisions.RequestDecides | internal/socks/handler.go:111-117 | it goes on to routing iff the request was read; either way the handshake is counted |
| Decisions.AddressRoutingDecides | internal/socks/handler.go:122-141 | a request by address goes to a dial iff the address is in the installed router's index, to discovery iff it is not, discovery is on and this is the first attempt, and else ends as ip_not_in_routes |
| Decisions.NameRoutingDecides | internal/socks/handler.go:138-141 | a request by name always goes to a dial, with the name normalised |
| Decisions.DialSlotDecides | internal/socks/handler.go:55-63 | a dial is refused iff there is a limit and as many sessions as it allows are inside a dial |
| Decisions.TicketDecides | internal/socks/handler.go:65-75 | the host, normalised twice more, either has a pool, whose counter is taken and moved on by one, or the route is not found and nothing changes |
| Decisions.LoadDecides | internal/router/pool.go:84-92 | one load of the scan: dial this backend iff its flag is set, else the next, and give up after the last |
| Decisions.DialDecides | internal/socks/handler.go:77-94 | the verdict of a dial is what the network said, and the dial is counted once its slot is free |
| Decisions.VerdictDecides | internal/socks/handler.go:145-163 | after a dial the client is answered iff there is a connection; the host is discovered iff the router the session entered had no pool for it, discovery is on and this is the first attempt; else the session ends, counted under the reason |
| Decisions.LookupWasEntered | internal/socks/handler.go:65-66 | the router of that lookup was the installed one when the session read it |
| Decisions.DiscoveryDecides | internal/socks/handler.go:128-159 | a discovery leads back to routing, for the second attempt, iff it added the route; else the session ends as it would have without |
| Decisions.ReplyDecides | internal/socks/handler.go:168-181 | the relay starts iff the success reply was written |
| Decisions.RelayDecides | internal/socks/handler.go:182-243 | a relay ends as relay_error iff one of the copy errors contains none of the four harmless texts in any case, as rst iff one contains a reset text, and else as a success that counts the session |
| Decisions.SessionMakesCall | internal/socks/handler.go:96-193 | a session with collector calls to make makes the first one, once, and does nothing else |
| Decisions.AcceptorMakesCall | internal/socks/server.go:99-106 | the same for the accept loop |
| Decisions.InstallDecides | internal/socks/handler.go:49-53 | lookups that start later use the new router; no earlier router and no session is touched |
| Decisions.HealthDecides | internal/router/pool.go:95-113 | a health update changes one router, as SetBackendAlive does, and nothing else |
| GaugeOverrun.GaugeIsUnbounded | internal/socks/server.go:143-149 | for every connection limit and every bound some run takes the active gauge above the bound |
| RoutingSafety.AlwaysTraced | internal/socks/handler.go:55-81 | every session is where its own past steps put it, in every interleaving |
| RoutingSafety.DialledTargetIsRouted | internal/socks/handler.go:121-163 | a dialled target was alive when chosen, in the pool of the session's route host, in a router installed when DialRoute read it |
| RoutingSafety.NoAliveIsHonest | internal/router/pool.go:82-92 | a session that reports no alive backends read an installed router and every round of its own scan of its host's pool loaded a dead flag |
| RoutingSafety.NoAliveSawAllDead | internal/router/pool.go:82-92 | unless that scan crossed a seam, each backend of the pool was dead at a step of it |
| RoutingSafety.InstalledRoutersKeepTheirRoutes | internal/socks/handler.go:43-53 | a router once installed keeps its pools, addresses and index for ever |
| Config.NormalizeAddresses | internal/config/config.go:235-249 | the loop compiles all addresses or returns the first error |
| Config.ReadAddresses | internal/config/config.go:287-292 | the unchecked second resolution never meets a missing address and yields the group's list |
| Config.NormalizeGroups | internal/config/config.go:226-271 | the group loop computes the specification, first error included |
| Config.NormalizeRoutes | internal/config/config.go:273-295 | the route loop computes the specification, and needs the groups to have compiled |
| Config.NormalizeAndValidate | internal/config/config.go:178-321 | the compiler equals its specification for every visiting order |
| ConfigLaws.LoadsIff | internal/config/config.go:178-321 | a file loads iff it is well formed, in whatever order its maps are visited |
| ConfigLaws.RoutesAgreeWithGroups | internal/config/config.go:264-294 | each host's list is the list of the group its name refers to, and is not empty |
| ConfigFields.LoadedFields | internal/config/config.go:297-320 | every scalar field of a loaded configuration in terms of the file, with the defaults as numbers of nanoseconds |
| ConfigFields.LastsAsSaidIff | internal/config/config.go:323-328 | with the 64-bit multiplication of the code a duration is the file's milliseconds iff there are at most 9223372036854 of them |
| ConfigFields.OverlongIsNegative | internal/config/config.go:323-328 | 9300000000000 ms make a negative timeout |
| ConfigFields.LoadedGroupFields | internal/config/config.go:226-271 | each group's trimmed name, interval, timeout and path (its own, else the file's, else the default), and its addresses one for one |
| ConfigFields.IntervalsPositive | internal/config/config.go:252 | within that range the probing interval is positive |
| ConfigFields.OverlongIntervalLoads | internal/config/config.go:252-256 | a group with both settings at 9300000000000 ms passes the check and has a negative interval |
| ConfigFields.LastNamesakeWins | internal/config/config.go:273-294 | of the hosts with one normal form the last visited has its addresses and group in the tables |
| ConfigFields.SettingsRefusedWith | internal/config/config.go:179-206 | which settings meet which error, each as an iff |
| ConfigFields.AddressRefusedWith | internal/config/config.go:236-247 | which address meets which error, each as an iff |
| ConfigFields.FirstBadAddress | internal/config/config.go:236-247 | a list of addresses is refused with the error of its first bad one |
| ConfigFields.GroupRefusedWith | internal/config/config.go:227-256 | which group meets which error |
| ConfigFields.RouteRefusedWith | internal/config/config.go:274-285 | which route meets which error, each as an iff |
| ConfigFields.FileRefusedWith | internal/config/config.go:178-295 | a file is refused for its settings, then for lack of groups or routes, then with the error of the first bad group visited, then with that of the first bad route |
| ConfigLaws.RouterAcceptsIff | internal/router/pool.go:43-50 | the router accepts a loaded file iff no host is emptied by a second normalisation |
| ConfigLaws.EveryBackendIsProbed | internal/health/checker.go:37-49 | every backend of every host is probed on that host's behalf |
| ConfigLaws.ProbesSucceedIff | internal/health/checker.go:59-65 | whatever the host keys: in every order in which the router visits its routes no update of any worker fails, iff whatever is probed for a host is in the list of every host that shares its pool |
| ConfigLaws.NormalProbesSucceedIff | internal/config/config.go:226-294 | with normal host keys that means: groups with a routed group's trimmed name add no address of their own |
| ConfigLaws.CheckerCoversRouter | internal/config/config.go:226-295 | with normal keys: the router is built, every backend in it is probed, and probes succeed iff namesakes agree |
| ConfigLaws.NameRoutedIff | internal/socks/handler.go:138-140 | a request by name finds a pool iff some configured host, normalised twice, is the name normalised three times |
| ConfigLaws.OwnNameRoutedIff | internal/socks/handler.go:66 | every configured host has a pool; a request for it by its own name is looked up under that pool's key iff two rounds settle the name, and so a host alone in the file is reachable iff they do |
| ConfigLaws.Ipv4RoutedIff | internal/socks/handler.go:122-127 | with normal keys an IPv4 request is indexed iff that address and port are a configured backend, and then DialRoute's lookup finds a pool that holds it |
| ConfigLaws.IndexHitRoutedIff | internal/socks/handler.go:126-145 | whatever the keys: the indexed host has a pool; DialRoute looks that pool up iff the host's tail is clean; and it finds some pool iff a configured host, normalised twice, is the indexed one normalised twice more |
| Discovery.RawConfig.AddAutoDiscoveredRoute | internal/config/config.go:141-176 | file and result after the call are those of the specification; errors and known hosts change nothing |
| Discovery.Resolve | cmd/zerosock/discovery.go:91-115 | literal IPv4 addresses stand for themselves; of a name's addresses the IPv4 ones are kept, in order |
| Discovery.Discoverer.Discover | cmd/zerosock/discovery.go:37-89 | a guarded key changes nothing; otherwise the file becomes the edited one or stays, the answer is yes iff the reload of that very file succeeds, the server is then switched to its target, and the guard is released |
| EditLaws.KeptInOrder | cmd/zerosock/discovery.go:106-114 | the addresses kept are exactly the IPv4 answers, each with the port, in the order of the answer |
| EditLaws.ResolvesAs | cmd/zerosock/discovery.go:91-104 | an IPv4 literal stands for itself, any other text for its lookup; the two errors, each as an iff |
| EditLaws.GroupNameReads | internal/config/config.go:161 | the group name is "auto-" and the key with a dash for every dot and colon |
| EditLaws.ChosenNameReads | internal/config/config.go:162-164 | a taken name gets a dash and the number of groups |
| EditLaws.FiledAs | cmd/zerosock/discovery.go:65-68 | a host is filed as it is, an IP address with its port |
| EditLaws.AddDecides | internal/config/config.go:141-176 | when a file is extended and with what, part by part; else it stays as it was |
| EditLaws.NothingWritten | cmd/zerosock/discovery.go:37-76 | which discoveries write nothing and what they answer |
| EditLaws.WrittenAnyhow | cmd/zerosock/discovery.go:70-88 | the others save the extended file even if the reload fails, and answer yes iff it succeeds |
| DiscoveryLaws.GroupsKeptIff | internal/config/config.go:161-174 | all earlier groups survive iff the chosen name is free or its group is the same |
| DiscoveryLaws.FallbackNameCollides | internal/config/config.go:161-166 | three accepted calls for a-b, a.b.3 and a.b on a file with one group leave a.b.3 routed to a.b's addresses |
| DiscoveryLaws.ExtendedFileLoadsIff | internal/config/config.go:141-176 | the extended file loads iff the new addresses resolve to concrete IPs, the key does not normalise away and the trimmed name is a group |
| DiscoveryLaws.NormalKeyLoadsIff | internal/config/config.go:149-174 | for a key in normal form only the addresses matter |
| DiscoveryLaws.DiscoveredQuadLoadsIff | internal/config/config.go:241-247 | an IPv4 address always yields a loadable file, except 0.0.0.0 |
| DiscoveryLaws.DiscoveryIsConservative | cmd/zerosock/discovery.go:60-84 | with normal keys and a free name every earlier host keeps its list and the new host gets the discovered one |
| DiscoveryLaws.HostsKeptIff | internal/config/config.go:161-174 | if no two host keys become one, every earlier host keeps its list iff nobody is routed to the group that was written, or has its addresses anyway |
| DiscoveryLaws.RetriedNameFoundIff | internal/socks/handler.go:147-152 | for any name that was not routed: after a discovery has saved and the file was reloaded, it is found iff net.ParseIP does not take it for an IP address and its three-times normalised form has a clean tail |
| DiscoveryLaws.RetriedQuadFound | internal/socks/handler.go:122-131 | the retried IPv4 request is found and leads to a pool that holds the address |
| DiscoveryLaws.QuadNameNotFound | cmd/zerosock/discovery.go:65-68 | a name spelled as an IPv4 address is filed with the port, and the retry finds no pool |
| DiscoveryLaws.NoRouteIsLost | cmd/zerosock/discovery.go:60-80 | without overlapping load-save windows a route keeps its host key and its group's name through the whole run |
| DiscoveryLaws.NothingLostIff | cmd/zerosock/discovery.go:38-80 | for discoveries of different new hosts, any of which may fail: no route is ever lost iff none saves between the load and the save of another |
| DiscoveryLaws.NothingLostIffNoOverlap | cmd/zerosock/discovery.go:38-80 | when all have ended and none failed: iff none loads between the load and the save of another |
| DiscoveryLaws.EverythingKeptIff | cmd/zerosock/discovery.go:38-80 | no route and no group is ever lost or changed iff none saves inside another's window and every chosen group name is free or has that very group |
| DiscoveryLaws.KeptThroughout | cmd/zerosock/discovery.go:38-80 | under that condition routes and groups of any moment are there, unchanged, at any later one |
| DiscoveryLaws.OverlapLosesARoute | cmd/zerosock/discovery.go:38-80 | with overlapping windows, for any two new hosts, both are saved and the first is gone |
| DiscoveredRequests.EditedFileLoadsIff | cmd/zerosock/discovery.go:52-80 | for any host: the saved file loads iff 0.0.0.0 is not among the addresses behind it, literal or looked up, its key does not normalise away, and the trimmed group name is a group |
| DiscoveredRequests.SpacedNameSpoilsFile | internal/config/config.go:161-174 | the name "a . ." is saved under the group "auto-a " and the file no longer loads, with no 0.0.0.0 involved |
| DiscoveredRequests.DiscoverySucceedsIff | cmd/zerosock/discovery.go:37-89 | a discovery that saves answers yes iff it is harmless (the conditions above, the key surviving two rounds), and the server is then switched to the saved file's routes |
| DiscoveredRequests.DiscoveredName | internal/socks/handler.go:138-152 | end to end for any unrouted name: when the answer is yes, when the retry finds a pool, that this is the pool of all looked-up IPv4 addresses if the group name is trimmed, and exactly when every earlier host keeps its addresses |
| DiscoveredRequests.DiscoveredQuad | internal/socks/handler.go:122-131 | end to end for an IPv4 address, with normal host keys: always saved, yes iff it is not 0.0.0.0, then found in a pool that holds it; and exactly when every earlier host keeps its addresses |
| Health.Checker.constructor | internal/health/checker.go:23-35 | the inverse map is that of the specification, in any visiting order |
| Health.InverseIsExact | internal/health/checker.go:24-27 | every host is listed exactly once, under its own group |
| Health.Checker.Start | internal/health/checker.go:37-49 | one worker for each address of each group |
| Health.WorkersCover | internal/health/checker.go:37-49 | the workers speak for exactly the (host, address) pairs of the configuration |
| Health.WorkerOf | internal/health/checker.go:37-49 | each address of each group has its own worker, with that group's path and hosts |
| Health.WorkerStandsFor | internal/health/checker.go:37-49 | and every worker is one of those |
| Health.Checker.Probe | internal/health/checker.go:57-74 | the router after a probe and the hosts whose flag flipped are those of the specification; errors skip a host |
| Health.ProbeSetsExactly | internal/health/checker.go:57-74 | a probe sets its address for exactly its hosts and leaves every other flag |
| Health.ReportsTheNews | internal/health/checker.go:57-74 | a probe reports, in order, exactly the hosts whose flag differed and for which no namesake came earlier |
| Health.LastWriteWins | internal/router/pool.go:95-113 | in any interleaving a flag is what the last update of that pair wrote |
| Health.RoundAgrees | internal/health/checker.go:57-74 | after a completed undisputed round every host of the worker shows what the probe found |
| Health.GroupAgreesAfterRound | internal/health/checker.go:53-86 | the same on a freshly loaded router, for all hosts of the group |
| Health.AgreeInEveryInterleavingIff | internal/health/checker.go:57-74 | in every interleaving of a probe's loop with other operations all its hosts show its finding iff no host's last other report says the opposite |
| Health.AgreeInEveryOrderIff | internal/health/checker.go:57-74 | if nothing is known about the order, a completed round leaves its finding on all hosts iff nobody reported the opposite |
| Health.DisputedRoundsDisagree | internal/health/checker.go:57-74 | two interleaved rounds with opposite findings can leave the first host and any other disagreeing |
| Reload.ApplyReloadPolicy | cmd/zerosock/reload.go:108-154 | restart-only fields stay, the others are taken over, and exactly the held-back fields are warned about, in order |
| ReloadDecisions.AppliedFields | cmd/zerosock/reload.go:108-154 | which field comes from the running configuration and which from the new one |
| ReloadDecisions.WarnedOrApplied | cmd/zerosock/reload.go:108-154 | a field is warned of iff it differs, and nothing is held back iff there is no warning |
| Reload.BuildReloadTarget | cmd/zerosock/reload.go:44-57 | error or fresh router and checker as specified, the checker bound to that router |
| Reload.RuntimeState.Switch | cmd/zerosock/reload.go:87-102 | configuration, router and live checker change together and the old checker is cancelled |
| Reload.RuntimeState.Reload | cmd/zerosock/reload.go:81-106 | a failed reload changes nothing; a successful one puts the target in force |
| Reload.RuntimeState.StopChecker | cmd/zerosock/reload.go:71-79 | no live checker is left and the last one is cancelled |
| ReloadLaws.ReloadSucceedsIff | cmd/zerosock/reload.go:44-57 | a readable file can be reloaded iff it is well formed and no host is emptied by two normalisations |
| ReloadDecisions.ReloadFailsWith | cmd/zerosock/reload.go:44-57 | which of the three errors a reload fails with, each as an iff |
| ReloadLaws.TargetsExist | cmd/zerosock/main.go:65-70 | any host in normal form can be served by any one concrete IPv4 backend: such a file starts the process |
| ReloadLaws.RunKeeps | cmd/zerosock/main.go:115-152 | the step-by-step invariant of the process, also in the middle of a reload and during shutdown |
| ReloadDecisions.LoopDecides | cmd/zerosock/reload.go:81-106 | what each step of the event loop may change; a failed build changes nothing |
| ReloadDecisions.ProbeDecides | internal/health/checker.go:57-74 | a probe's report reaches the router of its own checker and nothing else |
| ReloadDecisions.ServeDecides | internal/router/pool.go:76-93 | a pick reaches the router it was made on and nothing else |
| ReloadLaws.ReloadInvariant | cmd/zerosock/reload.go:81-106 | between reloads: restart-only fields as at the start, everything else from the last successful load, exactly one checker running, writing to the installed router |
| ReloadLaws.OnlyTheLiveCheckerWrites | cmd/zerosock/reload.go:87-102 | the installed router is changed by probes of its own uncancelled checker only |
| ReloadLaws.StaleCheckersAreHarmless | cmd/zerosock/reload.go:97-102 | a checker cancelled by a reload never again changes the installed router |
| ReloadLaws.EveryInstalledBackendIsWatched | cmd/zerosock/reload.go:50-56 | between reloads every backend that can be picked is configured and has a worker of the running checker |
| ReloadLaws.FiveStepsAreOneReload | cmd/zerosock/reload.go:87-102 | undisturbed, the event loop's steps add up to the single call |

## Left out

- Sockets, deadlines, keep-alive, idle timeouts and the bytes moved by `io.Copy` (with the relay byte counters): a connection is an input in pieces and an output that may stop; timing is not modelled, so a timeout is just one of the failures a step may have.
- Connections accepted that are not TCP, and backend connections that are not TCP (internal/socks/server.go:85-90, internal/socks/handler.go:86-90): the listener and dialer only produce TCP connections.
- DNS that changes: the resolver is one arbitrary function for each load, so a hostname backend that resolves in the first loop of the configuration compiler and not in the second (internal/config/config.go:290) is not modelled.
- File and YAML handling: the file is a variable that loads and saves exactly; unreadable files are one failure.
- Wrap-around of the 64-bit metrics counters; that of the ticket counter and of durations is modelled.
- Unicode: white space and case folding are those of ASCII, and a byte of a requested name is the character with its code.
- Error texts: dial failures are kinds, not texts, so a host name containing, say, "timeout" that confuses `classifyDialError` (internal/socks/handler.go:262-276) is not modelled; copy errors do keep their text.
- Health check counters and the alive map of the collector, log output, latency sums, `Snapshot`, `formatLabels` and the Prometheus text: these are reported to an operator and read back by nothing: routing, admission and reloads do not depend on them.
- Update in place of single backend objects: a pool holds its addresses and flags as parallel lists, because nothing shares a backend object.
- Label values of fixed vocabulary (stages, TCP states, address types) are enumerations; host, backend and result texts are strings.
- The discoverer is chosen when the process starts and never changed by a reload, so a reload that turns auto-discovery on or off only changes the recorded configuration; discovery requests waiting during shutdown are not answered, and no liveness is claimed there.
- Sessions.RunContinues: the sessions take the outcome of parsing, dialling and copying as events; that parsing behaves as in `Wire` is proved there for one connection and not joined into the step system.
- Discovery.Discoverer.Discover: the method runs without another discovery or reload between its load and its own reload; overlapping discoveries are the step system of `DiscoveryLaws`, in which loading and saving are separate steps. Failures to read or write the file are moves of that system and not of the method.
- Hosts.IterationConverges: bytes that are not ASCII are not covered.
