# tls-client: a verified model of its stateful core

tls-client is a Go HTTP client that imitates browser TLS fingerprints. This project models the parts of it in which
state, interleaving or byte formats decide whether it works, and proves properties of them that hold for every input
and every run. `dafny verify dfyconfig.toml` checks everything.

**The transport cache** (`TransportCache`, `TransportCacheInvariants`, `TransportCacheTheorems`). Three maps under three
mutexes are shared by requests, reconnect dials, evictions and the racer's legs. The model is a transition system: any
number of processes with program counters, explicit lock owners, a server that chooses every ALPN answer, and a history
of which transport was built last for an address. `RunInv` proves one inductive invariant over every schedule; the
theorems read it off: coherence, no panic, lock discipline for writes and reads, no cycle of waiters and no deadlock.
Three assumptions about the transports, which are library code, are part of the steps: a transport dials through the
round tripper only on behalf of an https request inside its round trip (a dial once started may outlive the request), it
dials only the address it is cached under, and it reports a changed protocol only if one of its own dials did.

Plain `http` requests share the `host:443` key and leave the recorded kind alone. A key is called stale from the moment
a plain request stores its HTTP/1 transport over a recorded kind other than HTTP/1 until that kind is set or deleted, or
a later plain build agrees with it. Recorded kinds are right exactly at keys that are not stale, a connection handed over
has the right kind exactly if the key was not stale when the kind was looked up, and a key is stale only while a drop of
it is between its two halves. `TransportCacheExamples.PlainHttpBreaksKinds` is a run that gets there, for every address.

**Connections** (`TransportLedger`, `LostConnections`, `TransportCacheRuns`, `TransportCacheExamples`). Every completed
handshake has an identity and a fate: in its dialer's hand, stashed, handed over, closed or leaked. The account balances
connection by connection and in numbers, and `LostExactlyWhen` says which connections no continuation of a run ever uses
or closes: those of a failed HTTP/3 build, and those on which HTTP/3 was negotiated while nobody is inside a transport of
the address that dials through the round tripper, because an HTTP/3 transport never takes the connection stashed beside
it and no later request finds another transport.

**Requests one at a time and the race** (`RoundTripper`, `Racer`, `RaceLegs`). The same cache as a class, with exact
conditions for success, for the protocol-changed error and for two such errors in a row, however often a round trip
dials; and the goroutines of a race, each leg with its program counter, over the two-slot channel, the locks they share
with other requests, the deadline and the waiter, which after a QUIC win waits for a lock too.

**The SOCKS5 tunnel** (`Socks5Udp`, `Socks5Tunnel`, `Socks5Control`, `Socks5Dialer`). The UDP header codec with both
round trips as if-and-only-if statements, the receive loop over a reused scratch buffer, the negotiation on the control
connection against a printer of the server's replies, and who closes which socket over any run of dials and closes.

**Trust anchors** (`TrustAnchors`). The record parser, the in-place Fisher-Yates shuffle and the printer with its
16-bit length field: which captures are accepted, that a payload is a reordering of them, and that the draws are in
one-to-one correspondence with the orders when records differ.

**The cookie jar** (`CookieJar`, `CookieStore`). The nested loops refine a map from names to cookies in both update
modes, and no list handed out earlier changes although `append` may write into its backing array.

**JA3, HTTP/3 settings, proxy switching** (`Decimal`, `Ja3`, `Ja3Factory`, `Http3Settings`, `ProxySwitch`).
The parser against a printer, with extension objects and their sharing; the copy-and-extend of the settings map; the
rollback state machine of `SetProxy`.

`Common` and `Text` hold what the modules share.

## Model

| member | source | states |
|---|---|---|
| `TransportCache.KeyTextInjective` | racer.go:250-255 | the racer's `addr:h3` slot never collides with a dial address or another slot, for every host and port |
| `TransportCache.KeyTexts` | roundtripper.go:710-717 | the texts of dial addresses and slots: port 443 by default, brackets around IPv6 hosts, `:h3` behind the slot |
| `TransportCache.KindSpeaks` | roundtripper.go:117-126 | h2 calls for an HTTP/2 transport, h3 for an HTTP/3 one, and every other protocol, none included, for HTTP/1 |
| `TransportCacheInvariants.StepInv` | roundtripper.go:132-168 | every step of every process (request, setup dial, reconnect, either half of a drop, racing leg) keeps the invariant on locks, maps and program counters |
| `TransportCacheInvariants.RunInv` | roundtripper.go:324-482 | the invariant holds after every schedule of any number of processes against any server |
| `TransportCacheTheorems.CacheIsCoherent` | roundtripper.go:493-604 | whenever the round tripper mutex is free, a cached transport is the one built last for its address, a stashed connection there has its kind, and a recorded kind is its kind if and only if the key is not stale |
| `TransportCacheTheorems.DialsYieldTheLatestKind` | roundtripper.go:392-482 | every connection ever handed over has the kind of the transport that was the last built when the kind was looked up, if and only if the key was not stale then; for a dial by the transport that is the last built at the handover that is its own kind |
| `TransportCacheTheorems.StaleOnlyInTheWindow` | roundtripper.go:154-168 | a key is stale only while a drop of it is between its halves; so with plain and secure requests mixed, a recorded kind is right whenever the mutex is free and no drop of the key is half done |
| `TransportCacheExamples.PlainHttpBreaksKinds` | roundtripper.go:350-352 | for every address a run in which a plain build between the halves of a drop makes the key stale, and an https request that finds this last-built transport is handed a connection of another kind |
| `TransportCacheTheorems.SetupNeverPanics` | roundtripper.go:348-369 | a stashed connection exists only while the transport built with it is cached, so the setup dial never finds one, `getTransport` never panics and no request reads a missing transport |
| `TransportCacheTheorems.OnlyTheHolderWrites` | roundtripper.go:371-394 | each map changes only in steps of the process that holds its lock, and a reconnect dial never changes the transport map |
| `TransportCacheTheorems.OnlyTheHolderReads` | roundtripper.go:371-394 | a step by a process that does not hold the transports lock is possible with the same effect whatever the transport map holds; likewise for stashed connections and the round tripper mutex, and for the recorded kinds and their lock |
| `TransportCacheTheorems.CacheChangesExactlyBy` | roundtripper.go:493-604 | a transport is stored exactly by a completed setup, of the kind its protocol calls for, by a plain request that finds none, or in an HTTP/3 slot; it is forgotten exactly by a drop of it; kinds are recorded exactly after a build and deleted exactly in the second half of a drop; a transport is marked failed exactly when a connection it dialed is refused |
| `TransportCacheTheorems.JudgedExactlyBy` | roundtripper.go:467-482 | a reconnect hands its connection over if and only if the kind it looked up speaks the negotiated protocol, and fails otherwise |
| `TransportLedger.ConnectionsAreConserved` | roundtripper.go:396-402 | a connection waits if and only if it is the one stashed for its address, is in hand if and only if it is the last one and the mutex holder has it, and all connections are those used, closed, leaked, stashed and in hand |
| `TransportLedger.StepLedger` | roundtripper.go:392-604 | every step of every process keeps the account: stashed and waiting connections are the same ones, and the only one in hand is the mutex holder's |
| `TransportLedger.FatesAreFinal` | roundtripper.go:467-482 | over any continuation of a run, a connection handed over, closed or leaked stays so, and no connection changes address or kind |
| `LostConnections.LostExactlyWhen` | roundtripper.go:577-604 | in every reachable state, no continuation ever uses or closes a connection if and only if an HTTP/3 build failed on it, or HTTP/3 was negotiated on it, it has not been used or closed, and no https request is inside a transport of its address that dials through the round tripper, nor is a dial of one under way |
| `LostConnections.LeakedExactlyBy` | roundtripper.go:590-592 | a step leaks a connection if and only if it is the failing HTTP/3 build right after that connection's handshake |
| `TransportCacheExamples.FailedBuildLoses` | roundtripper.go:590-592 | for every address a run in which a failed HTTP/3 build loses the connection |
| `TransportCacheExamples.BuiltTransportLoses` | roundtripper.go:593-602 | for every address a run in which the connection is stashed beside a built HTTP/3 transport and lost |
| `TransportCacheExamples.DroppedTransportLoses` | roundtripper.go:154-168 | for every address a run, with every process ended, in which an earlier HTTP/2 transport was built and dropped and the connection stashed beside an HTTP/3 transport is lost all the same |
| `TransportCacheExamples.EarlierTransportTakes` | roundtripper.go:398-402 | for every address a run in which a request still inside a dropped HTTP/2 transport is handed the connection stashed beside an HTTP/3 transport |
| `TransportCacheTheorems.LocksAreOrdered` | roundtripper.go:374-394 | a process that holds a lock waits only for a later one in the order transports lock, round tripper mutex, kinds lock |
| `TransportCacheTheorems.NoWaitCycle` | roundtripper.go:324-346 | no chain of waiters of any length closes into a cycle in a reachable state |
| `TransportCacheTheorems.NeverDeadlocked` | racer.go:124-141 | while some process is unfinished, some existing process can take a step |
| `RoundTripper.Tripper.CachedKind` | roundtripper.go:132-138 | in a coherent cache a kind is found exactly where a transport is cached, and is that transport's kind |
| `RoundTripper.Tripper.DropCachedTransport` | roundtripper.go:154-168 | where no connection is stashed for the address, dropping its cached transport keeps the cache coherent, leaves nothing for the address and all other addresses alone; a transport that has replaced the stale one stays in any case |
| `RoundTripper.Tripper.DialTLSWithSetup` | roundtripper.go:392-604 | keeps the cache coherent; any connection returned has the cached transport's kind; a setup never returns one, and where it reports a negotiated protocol leaves a new transport for that protocol and its kind, HTTP/1 for any protocol but h2 and h3, and otherwise none; a reconnect never changes the transports |
| `RoundTripper.Tripper.GetTransport` | roundtripper.go:348-369 | for an https address without a transport never panics, keeps the cache coherent, and succeeds exactly if a transport is cached afterwards; a plain request always gets a new HTTP/1 transport, with kinds and connections untouched; other schemes fail and change nothing |
| `RoundTripper.Tripper.RoundTrip` | roundtripper.go:324-346 | an https request keeps the cache coherent and other addresses alone, leaves nothing cached on a changed protocol, and succeeds exactly if its dials and the exchange do; a plain request succeeds exactly if the exchange does, over the cached transport or a new HTTP/1 one |
| `RoundTripper.ServeKeeps` | roundtripper.go:324-369 | from any coherent cache an https request keeps kinds and transports in step, touches no other address, never meets the panic, and fails with a changed protocol only by leaving nothing cached for its address |
| `RoundTripper.SetupLeaves` | roundtripper.go:484-604 | what an https request leaves at an address without a transport: nothing new after a failed dial or HTTP/3 build, otherwise a new transport for the negotiated protocol and its kind, with the connection still stashed exactly if the transport does not dial |
| `RoundTripper.HitLeaves` | roundtripper.go:324-346 | what it leaves at an address with one: the same transport and kind unless the protocol changed, and the stashed connection exactly if the transport does not dial |
| `RoundTripper.PlainLeaves` | roundtripper.go:349-352 | a plain request, whatever the cache holds, succeeds if and only if the exchange does, uses the cached transport or stores a new HTTP/1 one, and changes nothing else |
| `RoundTripper.OtherLeaves` | roundtripper.go:354-356 | any other scheme changes nothing and fails where no transport is cached |
| `RoundTripper.ChangedExactlyWhen` | roundtripper.go:467-482 | for any number of dials: the protocol-changed error occurs if and only if the first dial, after a stashed connection or the setup, that is no handshake of the transport's kind is a handshake of another kind |
| `RoundTripper.SucceedsExactlyWhen` | roundtripper.go:324-346 | for any number of dials: an https request succeeds if and only if the exchange does, the setup (where one is needed) completes, and all later dials are handshakes of the transport's kind |
| `RoundTripper.FailsAgainExactlyWhen` | roundtripper.go:324-346 | after a request that failed with the protocol-changed error, the next one to that address fails so if and only if a later dial of the round trip that sets its transport up meets another kind |
| `RoundTripper.NoTwoConsecutiveFailures` | roundtripper.go:324-346 | so with at most one dial in a round trip no two consecutive requests to an address fail with that error, whatever the server negotiates |
| `RoundTripper.BothFailExactlyWhen` | roundtripper.go:467-482 | two requests from an empty cache both fail with that error if and only if both meet a change after their setup |
| `RoundTripper.TwoDialsCanFailTwice` | roundtripper.go:467-482 | for every address two requests that do |
| `Racer.ProtocolRacer.WaitForRaceWinner` | racer.go:203-228 | returns the first winning result, or the error received last; records exactly the winner's protocol |
| `Racer.ProtocolRacer.Race` | racer.go:90-122 | returns the response of the cached protocol's attempt if that succeeds, with the protocol cache as it was, and otherwise what the race yields; never both a response and an error and never neither; afterwards the protocol cache names the protocol that answered, or nothing for the address; keeps the transport cache coherent |
| `Racer.RaceEnd` | racer.go:203-228 | a race ends with a response or an error, never both and never neither, and with a response if and only if some result won |
| `Racer.RaceAnswersExactlyWhen` | racer.go:90-228 | a raced request is answered by the cached protocol's attempt if that succeeds, without a race, and otherwise by the first leg that succeeded and is received before the deadline, if there is one; over QUIC only if a QUIC attempt succeeded and over TCP only if a request on the round tripper did; without an answer the error is the last leg's, or the deadline's |
| `Racer.RaceRecovers` | racer.go:100-122 | with h2 in the protocol cache, the request that meets a protocol change succeeds itself if the rebuilt TCP leg answers in time, and leaves a transport of the new kind and the winner's protocol |
| `Racer.RebuiltKind` | racer.go:183-201 | the transport a set-up request leaves behind speaks the protocol just negotiated, HTTP/1 for any but h2 and h3 |
| `RaceLegs.LegsSendOnce` | racer.go:157-201 | in every interleaving a leg that has ended has sent exactly one result and one that has not none; when a leg comes to send the channel has room, also after the waiter returned, and the leg holds no lock |
| `RaceLegs.ResultsAreReported` | racer.go:168-201 | every result sent is what the calls of its leg answered: the error of a failed build or setup, or the round trip's response and error |
| `RaceLegs.DropsExactlyOnChange` | racer.go:241-248 | a TCP leg that comes to send has dropped its transport if and only if its round trip reported a changed protocol |
| `RaceLegs.LegsNeverBlock` | racer.go:168-201 | an unfinished QUIC leg always has a next step; an unfinished TCP leg has one if and only if it is not waiting for a taken lock, in its setup or in the drop after a changed protocol, and that lock is never its own and never one the waiter cannot release; every step brings a leg closer to its end |
| `RaceLegs.LegsEnd` | racer.go:168-201 | over a whole run the QUIC leg takes at most three steps and the TCP leg, with a setup and a drop, at most fourteen |
| `RaceLegs.WaiterWaitsExactlyWhen` | racer.go:203-277 | the waiter is stuck if and only if it is at a select with nothing sent and the context not ended, or has a QUIC win to store while the TCP leg of its own race or somebody outside holds the transports lock |
| `RaceLegs.WaitsForTheLeg` | racer.go:263-277 | over any continuation, deadline or not, a waiter with a QUIC win to store moves only after a moment at which nobody holds the transports lock |
| `RaceLegs.QuicWinWaitsForTcp` | racer.go:208-213 | a run in which a QUIC win waits, past the deadline, for the setup dial of its own race's TCP leg |
| `RaceLegs.RaceOutcome` | racer.go:203-228 | in every interleaving the waiter returns a response if and only if it received a winning result, records exactly the winner's protocol, and fills the HTTP/3 slot only for a QUIC win |
| `Socks5Udp.Decode` | socks5_udp.go:493-540 | never returns an offset past the input, an address that is not 4 or 16 bytes, or a port above 16 bits |
| `Socks5Udp.HeaderRoundTrip` | socks5_udp.go:472-540 | decoding an encoded header before any payload gives back address (canonical form), port and offset if and only if the address has 4 or 16 bytes and the port fits 16 bits |
| `Socks5Udp.DecodeRoundTrip` | socks5_udp.go:472-540 | re-encoding a decoded header reproduces its bytes if and only if RSV was zero and no IPv4 address came in 16-byte form |
| `Socks5Udp.HeaderBytes` | socks5_udp.go:472-489 | the bytes of a header: three zeros, type 1 and four address bytes for an IPv4 address in either form or type 4 and sixteen, and the port with its higher byte first |
| `Socks5Udp.DecodeExactly` | socks5_udp.go:493-540 | decoding succeeds if and only if FRAG is zero and a whole header of type 1 or 4 is there, and returns exactly its address, port and offset |
| `Socks5Udp.SameIPMeans` | socks5_udp.go:413-415 | two addresses are the same if and only if their bytes are or one is the IPv4-mapped form of the other |
| `Socks5Tunnel.EncodeHeader` | socks5_udp.go:472-489 | writes exactly the header of section 7 of RFC 1928 into the buffer |
| `Socks5Tunnel.DecodeHeader` | socks5_udp.go:493-540 | decodes exactly the first n bytes, with the address in memory of its own |
| `Socks5Tunnel.NextTakesOne` | socks5_udp.go:398-424 | one read takes exactly the next acceptable packet off the stream |
| `Socks5Tunnel.PacketConn.WriteTo` | socks5_udp.go:366-390 | sends the header and the whole payload within 65535 bytes, or nothing |
| `Socks5Tunnel.PacketConn.ReadFrom` | socks5_udp.go:398-424 | returns the next packet of the stream, past foreign and undecodable datagrams, cut to the caller's buffer, with its address in memory of its own |
| `Socks5Tunnel.ReadAll` | socks5_udp.go:398-424 | repeated reads through one reused buffer return exactly the packets of the stream in order, each delivered by a datagram whose source is unknown or the relay's address in either form, and every address returned keeps its bytes |
| `Socks5Tunnel.PacketsExactly` | socks5_udp.go:398-424 | a packet is in the stream if and only if some datagram from the relay carries it behind a whole header, and each such datagram adds exactly that one at its place |
| `Socks5Tunnel.ForeignChangesNothing` | socks5_udp.go:409-415 | removing every datagram from another source changes nothing that is returned |
| `Socks5Tunnel.TunnelEcho` | socks5_udp.go:366-424 | a sent packet mirrored by the relay is read back with the same payload and address |
| `Socks5Control.AuthRoundTrip` | socks5_udp.go:152-193 | a section 2 RFC 1929 parser recovers both credentials for all lengths up to 255 |
| `Socks5Control.HandshakeBytes` | socks5_udp.go:95-180 | the bytes of the greeting with and without credentials, and of the credentials |
| `Socks5Control.RequestBytes` | socks5_udp.go:230-262 | the bytes of the request for a client address that is not zero |
| `Socks5Control.AnonymousRequestBytes` | socks5_udp.go:230-262 | a client without an address, or with a zero one, announces 0.0.0.0:0 |
| `Socks5Control.ReplyBytes` | socks5_udp.go:268-319 | the bytes of a successful reply for each address type |
| `Socks5Control.ParsePrinted` | socks5_udp.go:268-319 | a reply printed as in section 6 of RFC 1928 is parsed back, with what follows it untouched |
| `Socks5Control.PrintParsed` | socks5_udp.go:268-319 | whatever parses as a reply was printed from its address and port |
| `Socks5Control.AssociateMeans` | socks5_udp.go:199-347 | the exchange yields a relay and leaves a rest unread if and only if the server's bytes are a handshake reply to an offered method, a printed reply and that rest; the relay has the printed port and the printed or resolved address, or the proxy's where that address is 0.0.0.0 in either form or :: |
| `Socks5Control.ControlConn.UsernamePasswordAuth` | socks5_udp.go:152-195 | succeeds exactly if both credentials fit, the write succeeds and the status is zero; consumes two bytes |
| `Socks5Control.ControlConn.Handshake` | socks5_udp.go:95-149 | succeeds exactly on a reply to an offered method; sends greeting and, where asked, credentials |
| `Socks5Control.ControlConn.ReadReply` | socks5_udp.go:268-319 | reads exactly one reply |
| `Socks5Control.ControlConn.UDPAssociate` | socks5_udp.go:199-347 | returns a relay exactly if the stream spells a successful exchange that leads to it and the writes succeed; consumes only the replies and sends exactly greeting, credentials and request |
| `Socks5Dialer.SocketsAreConserved` | socks5_udp.go:544-614 | over any run of dials and closes a socket is open exactly while an open packet connection owns it, and otherwise was closed exactly once |
| `Socks5Dialer.Network.AssociateUDP` | socks5_udp.go:199-211 | the control socket is left open on success and closed once on every later failure |
| `Socks5Dialer.Network.DialQUIC` | socks5_udp.go:544-614 | succeeds exactly if every step does; a failed dial leaves each socket it opened closed once, a successful one leaves both open in its packet connection |
| `Socks5Dialer.PacketConn.Shut` | socks5_udp.go:428-444 | only the first close closes the two sockets |
| `Socks5Dialer.Drive` | socks5_udp.go:544-614 | the code does on any run what the specification of runs says |
| `TrustAnchors.SplitRecords` | profiles/extension_data.go:77-90 | finds records whose concatenation is the list if and only if there are any |
| `TrustAnchors.HexMeans` | profiles/extension_data.go:63-66 | a capture decodes to bytes if and only if it has two hex digits for each, the first the higher half |
| `TrustAnchors.SplitTrustAnchors` | profiles/extension_data.go:62-90 | accepts exactly the hex texts of payloads with a fitting length field, and returns their records |
| `TrustAnchors.SplitFlattens` | profiles/extension_data.go:79-87 | concatenating the records found gives the list back |
| `TrustAnchors.FlattenSplits` | profiles/extension_data.go:79-87 | splitting concatenated records finds exactly them |
| `TrustAnchors.ShuffledPermutes` | profiles/extension_data.go:122-129 | every outcome of the shuffle is a permutation |
| `TrustAnchors.DrawnIsLast` | profiles/extension_data.go:122-129 | each draw says which of the records not yet placed goes to the end |
| `TrustAnchors.EveryOrderIsDrawn` | profiles/extension_data.go:118-129 | every permutation is the outcome of some draws |
| `TrustAnchors.DrawsAreUnique` | profiles/extension_data.go:118-129 | with distinct records no two sequences of draws have the same outcome |
| `TrustAnchors.InPlaceIsShuffled` | profiles/extension_data.go:122-129 | the loop over the whole array is the recursive shuffle of the part not yet visited |
| `TrustAnchors.Shuffle` | profiles/extension_data.go:122-129 | the in-place loop leaves the shuffle of the drawn numbers in the array |
| `TrustAnchors.ShuffleTrustAnchors` | profiles/extension_data.go:118-144 | prints the anchors in the drawn order and leaves the given ones unmodified |
| `TrustAnchors.PayloadSplits` | profiles/extension_data.go:131-144 | a printed payload splits into its records if and only if the list length fits the 16-bit field |
| `TrustAnchors.PayloadBytes` | profiles/extension_data.go:131-144 | the size with its higher byte first, then one record after the other, each an 8-bit length and that many bytes |
| `TrustAnchors.BuildTrustAnchorsPayload` | profiles/extension_data.go:101-108 | builds exactly from well-formed captures; same size, no overflow, splits into the captured records in the drawn order |
| `CookieJar.UniqueMeans` | jar.go:190-206 | keeps one cookie of each name, the last of the batch |
| `CookieJar.NonEmptyKeeps` | jar.go:208-225 | keeps exactly the cookies with a value, or all if empty ones are allowed, in their order |
| `CookieJar.NotExpiredKeeps` | jar.go:227-247 | keeps exactly the cookies whose max age is not negative, in their order |
| `CookieJar.UpdateAddsAtTheEnd` | jar.go:84-150 | new names come after the existing ones, the last of the batch first, in either mode |
| `CookieJar.DomainKey` | jar.go:175-188 | b.c and every a.b.c have the key b.c |
| `CookieJar.OwnKey` | jar.go:175-188 | hosts of one label or more than three are their own key |
| `CookieJar.UpdateMeans` | jar.go:84-150 | after one call names are unique and, as a map, the batch overwrites the list, or the list the batch in skip-existing mode |
| `CookieJar.LastWriteWins` | jar.go:93-121 | after any calls for any hosts, a host key's list is last-write-wins over everything accepted for it |
| `CookieJar.FirstBatchWins` | jar.go:123-149 | in skip-existing mode each name keeps the cookie of the first accepted batch that had it |
| `CookieJar.BatchesCompose` | jar.go:84-121 | in overwrite mode a batch at once or split in two gives the same map |
| `CookieJar.ListsOnlyGrow` | jar.go:123-149 | in skip-existing mode a list stays a prefix of every later one |
| `CookieStore.FilterUnique` | jar.go:190-206 | the loop from the back computes the specified filter |
| `CookieStore.FilterWithout` | jar.go:98-113 | the nested loops keep exactly the cookies whose names do not occur |
| `CookieStore.Jar.SetCookies` | jar.go:84-150 | updates only its host key, as specified, and changes no slice ever handed out |
| `CookieStore.Jar.Cookies` | jar.go:152-161 | the stored list without cookies of negative max age |
| `CookieStore.SetAndAsk` | jar.go:84-161 | after a call for one host, a host with another key is returned what it was before, and a host with the same key every cookie of the batch that was accepted, is the last of its name and not expired (and new, in skip-existing mode) |
| `CookieStore.SetAndAskInDomain` | jar.go:84-188 | a batch set for a.b.c is returned for b.c and for every x.b.c |
| `CookieStore.Jar.GetAllCookies` | jar.go:163-173 | a copy of the map with the stored slices |
| `CookieStore.SnapshotsSurvive` | jar.go:84-173 | any number of later calls leave every list handed out before as it was, whatever room append finds |
| `Decimal.ParsePrintUint` | ja3.go:158-164 | a number is parsed from its print, and a token is printed from its number if and only if it is a canonical decimal |
| `Ja3.AcceptedExactlyWhen` | ja3.go:140-260 | a text is accepted if and only if it has five fields, ciphers and curves are 16-bit numbers, point formats 8-bit numbers, extensions known ids (compress_certificate and trust_anchors if configured), and only curves and point formats are empty; fewer than five fields panic instead of failing |
| `Ja3.FirstObjection` | ja3.go:221-243 | the error reported for the extensions is the objection to the first token that has one: no number, anchors missing, or unknown |
| `Ja3.FailsInOrder` | ja3.go:155-253 | the fields are read in the order curves, point formats, extensions, ciphers, and the first failure is reported |
| `Ja3.ExtensionsHoldOptions` | ja3.go:166-219 | every extension of an accepted text holds what was configured for it, or the text's own curves and point formats |
| `Ja3.Fidelity` | ja3.go:140-260 | printing the resulting ClientHello reproduces fields two to five if and only if the tokens are canonical decimals and curves and point formats come with the extension that carries them |
| `Ja3.ParsesItsPrint` | ja3.go:140-260 | every ClientHello that the options can make is made from its own JA3 text |
| `Ja3Factory.EntriesAreStored` | ja3.go:166-299 | the map entries, base and added, are exactly the extension kinds stored by wire id |
| `Ja3Factory.ExtensionMap` | ja3.go:262-299 | the filled map holds exactly the known ids, each with a new object of the right content |
| `Ja3Factory.ListExtensions` | ja3.go:221-243 | lists the specified extensions; GREASE entries are distinct objects and repeats of any other id share one |
| `Ja3Factory.StringToSpec` | ja3.go:140-260 | the specified ClientHello, on objects no earlier one holds |
| `Ja3Factory.Factory.Specs` | ja3.go:39-137 | every trust-anchors extension of every spec of one factory carries the factory's payload |
| `Ja3Factory.SpecFactory` | ja3.go:23-38 | draws the anchor order once: a reordering of the captured records, or no factory exactly for a malformed capture |
| `Http3Settings.GreaseIsReserved` | utils.go:21-39 | a drawn id has the form 0x1f * N + 0x21, lies below 2^62, and its value is a non-zero 32-bit number |
| `Http3Settings.BuildAddsOneReserved` | roundtripper.go:240-276 | with ids below 31 * 10^9 + 33 a build sends the configured map plus one reserved id with non-zero value, last in a non-empty order |
| `Http3Settings.BuildSendsTheDraw` | roundtripper.go:253-268 | id and value of the added entry are those of the random source |
| `Http3Settings.BuildWithoutPriority` | roundtripper.go:269-276 | without a priority parameter settings and order are sent as they are |
| `Http3Settings.SelectedMeans` | roundtripper.go:185-202 | what the direct path selects: everything without an order, exactly what is listed with one |
| `Http3Settings.SurviveExactlyWhen` | roundtripper.go:253-260 | configured values survive every draw if and only if no configured id can be drawn |
| `Http3Settings.DrawableIsLarge` | utils.go:21-27 | exactly which ids can be drawn |
| `Http3Settings.PathsAgreeExactlyWhen` | racer.go:288-301 | direct and racing path send the same apart from GREASE, whatever is drawn, if and only if the order is empty or lists every configured id |
| `Http3Settings.Profile.GetHttp3Settings` | roundtripper.go:185-202 | the settings listed in the order, the profile's own map without an order, nil when empty |
| `Http3Settings.BuildTransport` | roundtripper.go:240-276 | sends what is specified, from a map of its own |
| `Http3Settings.BuildMany` | roundtripper.go:185-276 | any number of builds on either path leave the profile's map and order unchanged, and share no map |
| `ProxySwitch.ValidateProxyConfig` | client.go:178-192 | accepts exactly if racing implies an empty or SOCKS5 proxy |
| `ProxySwitch.ValidateConfig` | client.go:142-172 | a valid racing configuration can use HTTP/3 through its proxy; a valid configuration has at most one proxy mechanism |
| `ProxySwitch.ValidExactlyWhen` | client.go:142-192 | exactly which configurations are valid |
| `ProxySwitch.ProxyIsLive` | client.go:344-413 | after construction and any switches, whatever they return, the configured proxy is the live transport's, and TCP dials use it if and only if none is set or there is no custom dialer; racing implies it carries QUIC; every HTTP/3 transport ever cached has its round tripper's proxy, empty or SOCKS5 |
| `ProxySwitch.StillValidExactlyWhen` | client.go:344-413 | after any run the configuration with the current proxy is one that construction accepts if and only if no proxy is set or there is neither a dialer factory nor a custom dialer; and TCP dials use the proxy if and only if none is set or there is no custom dialer |
| `ProxySwitch.ProxyIgnored` | client.go:399-402 | every valid client with a custom dialer can be switched to a proxy that its TCP dials then ignore |
| `ProxySwitch.SameRouteExactlyWhen` | client.go:215-217 | after any run TCP dials go where construction with the current proxy would send them if and only if the live round tripper is the one made at construction, a proxy, factory or custom dialer is set, or the configured dialer has no timeout, local address or option to lose |
| `ProxySwitch.RollbackLosesDialer` | client.go:357-375 | a switch that fails and rolls back to no proxy, without an error, loses the configured dialer |
| `ProxySwitch.HttpClient.ApplyProxy` | client.go:373-413 | a new round tripper with the configured proxy, whose direct dials are bare, or an error and the old one |
| `ProxySwitch.HttpClient.SetProxy` | client.go:344-366 | the new proxy exactly if it validates and applies; no error also after a rollback that applies |
| `ProxySwitch.NewHttpClient` | client.go:90-140 | a client exists exactly if its configuration validates and applies |
| `ProxySwitch.RoundTripper.CacheHttp3` | roundtripper.go:224-238 | builds and caches exactly if the proxy is empty or SOCKS5 and nothing else fails |
| `ProxySwitch.Drive` | client.go:344-413 | the code does on any run what the specification of runs says |

## Left out

- TLS, QUIC, HTTP/1 and HTTP/2 transports, dialing, DNS and `url.Parse` are library code: their outcomes are free choices or parameters.
- The HTTP/3 transport of a racing leg itself is used once and never cached; `ProxySwitch` follows the cached ones.
- Random sources are parameters: the draws of the shuffle and of the GREASE entry.
- An access to guarded data and the unlock right behind it are one step of the transition system; nobody else may touch the data in between. For the racer's HTTP/3 slots "built last" means stored last.
- Racer.ProtocolRacer.Race: runs the TCP leg to its end before the waiter's selects, and takes the outcome of the QUIC leg as given; the interleaving of legs, deadline and waiter is in `RaceLegs`.
- Closing idle connections of a dropped transport, and the response body of the losing leg, which the code does not close.
- `RaceLegs`: what a leg's calls answer (a build, a cached transport, a setup dial, a round trip) is an event that may happen at any point; dials inside a round trip, and the locks they take, are in `TransportCache`.
- Wall-clock time: the head start and the deadlines of the race and of the control connection are events that may happen at any point.
- Cookies are values: mutation of a cookie through a reference the jar shares with its caller is not modelled, nor is a caller appending to a list it was given. The jar's inner library jar is written and never read by `Cookies`, so it is not modelled.
- Locks of the cookie jar and of the packet connection: their methods are modelled as atomic.
- `parseSOCKS5ProxyURL` and `resolveUDPAddr`: address parsing and a resolver preference; their failure is an outcome of a dial.
- Socks5Tunnel.PacketConn.WriteTo: addresses that are not UDP addresses are refused before anything else; the model has only UDP addresses.
- The mapping of option names to code points in `GetSpecFactoryFromJa3String`, and its parse errors: table lookups. Extension ids and the ids of HTTP/3 settings are numbers here; the extension constants of the TLS library are taken from the IANA registry.
- The error of `buildHTTP3Transport` for a response header limit outside the range of `int`, and its remaining fields, are the free outcome `builds`.
- Profiles and their mapper are constant tables; the certificate pinner and the CONNECT dialer are plumbing over unseen libraries.
- The C interface, bandwidth tracking, logging, websockets, option setters and request hooks would add easy members only.
- That `SetProxy` returning nil means that the new proxy is active is false: it returns nil after a rollback that applies, as `ProxySwitch.HttpClient.SetProxy` states. The dialer returned by `GetDialer` is never updated by it.
