# Tunnel programs: model and proofs

The repository holds two pairs of tunnelling programs.

* The **TCP VPN pair** reads IPv4 packets from a TUN device, writes them into a TCP connection
  one after the other, and cuts them out of the stream again on the far side.
* The **LTE pair** opens a TCP *control connection* that carries one octet and is then left to
  idle. Client and proxy agree over UDP, read the sequence numbers of that one octet (the
  *marker*) off the wire, and from then on send tunnelled packets as raw segments that look like
  part of the control connection. A netfilter queue on each side takes those segments out of the
  stream before the kernel sees them and lets only the connection's own idle traffic pass.

This project models the logic of both pairs and proves what they are for. `dafny verify
dfyconfig.toml` checks all of it.

## The modules

| file | what it covers |
|---|---|
| `Bytes.dfy`, `Ipv4.dfy` | octets, 32-bit wrap-around, the two functions that cut an inner packet out of a buffer |
| `Stream.dfy` | the TCP VPN pair: partial sends, chunks, the drain loop, the pipeline as a FIFO |
| `Checksum.dfy`, `OuterPacket.dfy` | the Internet checksum (section 1 of RFC 1071), the outer segment as printer and parser |
| `RawSend.dfy` | the loop that sends TUN packets as segments, and its sequence accounting |
| `Messages.dfy`, `Retry.dfy` | the UDP messages as text, nonces, the retry timer |
| `ClientUdp.dfy`, `ProxyUdp.dfy` | the UDP loops of either side, on text and on messages |
| `Learning.dfy` | what a marker teaches, the filter, the queue callbacks |
| `Session.dfy` | the session protocol as a distributed step system |
| `Tunnel.dfy` | the session protocol together with kernels, wire, filters and tunnelled packets |
| `Scenarios.dfy` | runs that exist: sessions that succeed, deliver and end, and counterexamples |
| `Routes.dfy`, `Lifecycle.dfy` | the client's routes, rules, threads and descriptors from start to cleanup |

Code that works step by step (loops over buffers, `recv` results, texts; objects whose fields
change) is written as methods and classes, each tied to a function or a stated outcome; pure
tests are functions. Where client and proxy run the same code with directions exchanged, one
model stands for both and takes the direction as a `Flow`.

## The two step systems

`Session` has any number of client processes and proxy sessions. The UDP network and the TCP
wire are the sets of everything ever sent: a receiver may take any element at any time, again and
again, or never. This covers loss, repetition, reordering, and messages of earlier sessions. The
threads of an endpoint share one record. An event is at most one store or one send; the tests of
the stop flags are no part of it, so a thread that has passed such a test goes on, whatever is
raised meanwhile, and cleanup may begin at any point. Cleanup is several events, and threads that
are still running go on through it and after it. The invariant has one clause for every message
kind. `Session.TextLoopsTakeTheseSteps` ties its events to the loops on text.

`Tunnel` adds both kernels' ends of each control connection (next-send and next-receive numbers,
section 3.3.1 of RFC 9293), all segments ever on the wire, and the two TUNs. A kernel may emit any
pure ACK, any keepalive probe (section 3.8.4 of RFC 9293) and the marker as often as it likes;
any segment may arrive at any time. With the tunnel rule in place a segment is either taken in by
the queue, which decides about it then or later, or lost; without the rule the kernel gets it. The
phases `CRuleGone` and `PRuleGone` begin when a side removes its rule; its socket is closed some
time later, and until then its kernel does take tunnelled payload.

Assumed in both:

* A nonce is new when an endpoint starts. `Messages.MadeNonceFresh` shows what this rests on: two
  made nonces are equal only for the same role, process and clock reading.
* Only endpoints send messages and segments, and no flow is used twice while segments of an
  earlier connection are about.
* No address translation between the two, so both ends see the same flow.
* A send that fails is a lost message followed by cleanup; cleanup may start at any point.

## What does not hold, and exactly when it does

* **The bases of both ends can differ.** The proxy takes the first REGISTER that arrives, whoever
  sent it. `Scenarios.CrossedBasesDiffer` is a run with two live clients, whose connections start
  from different numbers, in which a session finishes its handshake with a client that has learned
  other real and fake bases. `Tunnel.BasesAgreeIffSameConnection` gives the exact condition for
  equal bases and mirrored filters: the session accepted the connection of the client it
  registered. `Session.DataPlaneNeedsBoth` and `Tunnel.TunnelIntegrity` need no such condition.
* **The client's filter can drop the proxy's idle traffic.** Before the marker has arrived the
  proxy's kernel acknowledges one number less than the filter asks for
  (`Scenarios.EarlyAckDropped`). `Tunnel.IdleTrafficPasses`: on a connection whose two ends
  registered with each other and have not removed their rules, it passes a filter that has learned
  if and only if the marker has arrived.
* **The default route is not always restored.** `Lifecycle.ClientMain.Run` says which outcomes
  lead the client to replace it, and that it is then back if and only if the default route in use
  had metric 0 and no attribute beyond gateway, interface and source.
  `Routes.MetricNotTakenBack` and `Routes.AttributeNotTakenBack` are routing tables that are not.
* **A sequence number can jump.** It moves by a tenth of each packet exactly as long as the 64-bit
  octet counter does not wrap (`RawSend.StepRoundsDownOrUp`).
* **A malformed header stops a TCP VPN receiver for good.** `Stream.MalformedHeadAbsorbs` says
  exactly which buffers do this.

## Model

| member | source | states |
|---|---|---|
| Ipv4.Pop | Proxy-Server-TCP-Tunnelling-VPN-Program/proxy_parser.cpp:8-50 | what is popped and what is left are together the buffer; a popped packet is well formed and has at least 20 octets |
| Ipv4.ParsersAgree | LTE-Free-Client-Program/client_nfqueue.cpp:315-347 | the LTE extractor accepts a payload exactly when the TCP pair would pop all of it and it is at most 1400 octets; both yield it unchanged |
| Ipv4.PopExtends | Client-TCP-Tunnelling-VPN-Program/client_parser.cpp:7-49 | later octets never change which packet is popped |
| Ipv4.PopWellFormed | Client-TCP-Tunnelling-VPN-Program/client_parser.cpp:7-49 | a well-formed packet at the front is popped whole, whatever follows |
| Ipv4.DoomedIffNothingEverPops | Proxy-Server-TCP-Tunnelling-VPN-Program/proxy_parser.cpp:15-49 | wrong version, short header length or a total length below it is the exact condition under which no later octets lead to a pop |
| Stream.DrainConserves | Proxy-Server-TCP-Tunnelling-VPN-Program/proxy_socket.cpp:165-178 | deliveries and leftover concatenate to the octets received, for any octets; deliveries are well formed; nothing poppable remains |
| Stream.DrainConfluent | Proxy-Server-TCP-Tunnelling-VPN-Program/proxy_socket.cpp:163-178 | draining before or after more octets arrive delivers the same |
| Stream.ChunkingIrrelevant | Proxy-Server-TCP-Tunnelling-VPN-Program/proxy_socket.cpp:133-180 | deliveries and leftover depend only on the concatenation of the chunks |
| Stream.MalformedHeadAbsorbs | Client-TCP-Tunnelling-VPN-Program/client_socket.cpp:117-132 | with a malformed head no later chunk is ever delivered from, and only then |
| Stream.FifoAtAllTimes | Client-TCP-Tunnelling-VPN-Program/client_socket.cpp:87-134 | of any prefix of well-formed packets laid end to end exactly the complete packets are delivered, in order |
| Stream.CutKeepsWellFormed | Client-TCP-Tunnelling-VPN-Program/client_tun.cpp:112-124 | a packet survives the 2000-octet read buffer exactly when it fits |
| Stream.TunnelIsFifo | Client-TCP-Tunnelling-VPN-Program/client_tun.cpp:112-156 | of any prefix of the stream, cut in any way, the packets delivered are a prefix of those read, and all of them once the whole stream has arrived |
| Stream.Tunnel | Client-TCP-Tunnelling-VPN-Program/client_tun.cpp:112-156 | both loops, one after the other on the same stream: for every schedule of partial sends, interruptions and refusals and every chunking, the far TUN gets a prefix of the packets read; and all of them if no send is refused, there are as many sends as octets, the stream arrives and no write fails |
| Stream.AllAccepted | Proxy-Server-TCP-Tunnelling-VPN-Program/proxy_tun.cpp:70-90 | all of a number of writes are accepted if and only if none of their outcomes is a failure |
| Stream.TryPopIpv4Packet | Proxy-Server-TCP-Tunnelling-VPN-Program/proxy_parser.cpp:8-50 | the in-place version takes exactly the packet `Pop` says and leaves exactly the rest, or changes nothing |
| Stream.DrainToTun | Proxy-Server-TCP-Tunnelling-VPN-Program/proxy_socket.cpp:165-178 | the loop ends and writes what `Drain` says, up to exactly the first TUN write that fails |
| Stream.StreamToTunLoop | Proxy-Server-TCP-Tunnelling-VPN-Program/proxy_socket.cpp:133-180 | over any `recv` results and write outcomes the TUN gets what `Receive` says of the chunks, up to exactly the first write that fails; stop is raised exactly on end of stream, an error of its own or a failed TUN write |
| Stream.SendAll | Proxy-Server-TCP-Tunnelling-VPN-Program/proxy_socket.cpp:104-131 | from the results alone: done at the first result by which as many octets as there are were taken; failed at the first refusal or stop signal before that; else waiting; the stream holds exactly the octets taken, once and in order |
| Stream.TunToStreamLoop | Proxy-Server-TCP-Tunnelling-VPN-Program/proxy_tun.cpp:92-136 | the stream grows by a prefix of the packets read, laid end to end, and by all of them if no send is refused and there are as many sends as octets; short of that exactly a refusal or the lack of results stops it; stop is raised exactly on a refused send, end of file or an error of its own |
| Checksum.FoldClosedForm | LTE-Free-Client-Program/client_raw.cpp:44-45 | folding gives the residue modulo 65535, and 0 only for the sum 0 |
| Checksum.ComplementCompletes | LTE-Free-Client-Program/client_raw.cpp:44-47 | a sum plus its complement folds to all ones |
| Checksum.WordSumAppend | LTE-Free-Client-Program/client_raw.cpp:64-85 | word sums add over a split at an even offset, as the pseudo-header needs |
| Checksum.ChecksumVerifies | LTE-Free-Client-Program/client_raw.cpp:121-124 | data whose zeroed checksum field is filled with the complement verifies at the receiver |
| Checksum.SumFits | LTE-Free-Client-Program/client_raw.cpp:26-42 | the 32-bit accumulator cannot overflow on up to 131072 octets |
| Checksum.Checksum16 | LTE-Free-Client-Program/client_raw.cpp:23-48 | the loop with its wrapping accumulator computes the complement of the folded word sum, odd lengths included |
| Checksum.FoldCarries | LTE-Free-Client-Program/client_raw.cpp:44-45 | the closing loop terminates and folds |
| OuterPacket.Parse | LTE-Free-Client-Program/client_nfqueue.cpp:66-128 | every read is in bounds and no length subtraction underflows, for any octets; a result has the configured flow and its payload lies within the packet |
| OuterPacket.ParseLaidOut | LTE-Free-Client-Program/client_nfqueue.cpp:66-128 | a segment laid out octet by octet, with any header lengths, options, reserved bits and trailing octets, is read back as it is |
| OuterPacket.ParseExactly | LTE-Free-Proxy-Server-Program/proxy_nfqueue.cpp:67-133 | a packet is read as a segment if and only if it is that segment laid out, with some headers, under the configured flow |
| OuterPacket.BuildLaidOut | LTE-Free-Client-Program/client_raw.cpp:114-135 | the built packet's header octets: no options, don't fragment, time to live 64, PSH and ACK, largest window |
| OuterPacket.ParseBuild | LTE-Free-Proxy-Server-Program/proxy_nfqueue.cpp:67-133 | with the same flow the parser reads a built packet back into the same numbers, flags and payload |
| OuterPacket.ParseOtherFlow | LTE-Free-Proxy-Server-Program/proxy_nfqueue.cpp:92-133 | a built packet is accepted under a flow if and only if it is the flow it was built for |
| OuterPacket.InnerRoundTrip | LTE-Free-Proxy-Server-Program/proxy_nfqueue.cpp:329-361 | an inner packet comes out octet for octet if and only if it is well-formed IPv4; anything else is refused |
| OuterPacket.BuiltPacketVerifies | LTE-Free-Client-Program/client_raw.cpp:64-138 | the IP header and the pseudo-header with TCP part of every built packet verify, for even and odd lengths |
| OuterPacket.WriteIpHeader | LTE-Free-Client-Program/client_raw.cpp:114-124 | the in-place writes produce the IP header with its checksum and leave the rest alone |
| OuterPacket.WriteTcpHeader | LTE-Free-Client-Program/client_raw.cpp:126-135 | the in-place writes produce the TCP header with its checksum and leave the rest alone |
| OuterPacket.BuildOuterPacket | LTE-Free-Client-Program/client_raw.cpp:87-138 | the filled buffer is the packet the round trip and checksum lemmas are about; empty and oversized packets are refused |
| RawSend.FirstSegment | LTE-Free-Client-Program/client_raw.cpp:233-237 | the first segment of a fresh state is read with the base itself as its number |
| RawSend.KthNumber | LTE-Free-Client-Program/client_raw.cpp:233-262 | the k-th segment's number is the base plus a tenth of all octets counted before it, rounded once, modulo 2^32 |
| RawSend.KthSegment | LTE-Free-Proxy-Server-Program/proxy_nfqueue.cpp:67-133 | the far parser reads the k-th segment as the k-th packet under the k-th number |
| RawSend.StepRoundsDownOrUp | LTE-Free-Client-Program/client_raw.cpp:261-262 | each segment moves the number by a tenth of its length rounded down or up, also across its wrap, if and only if the 64-bit counter does not wrap |
| RawSend.TruncationCommutes | LTE-Free-Client-Program/client_raw.cpp:234-236 | cutting the 64-bit offset to 32 bits before or after the sum is the same |
| RawSend.TunToRawLoop | LTE-Free-Client-Program/client_raw.cpp:189-274 | the wire gets exactly the segments of the packets read, with the numbers above, up to exactly the first that cannot be built or whose send fails; when stop is raised |
| Messages.PrefixFree | LTE-Free-Client-Program/client_udp.cpp:15-21 | any text enters at most one branch of a dispatch |
| Messages.PrintDispatch | LTE-Free-Proxy-Server-Program/proxy_udp.cpp:488-605 | a printed message enters exactly its own branch, with its own body |
| Messages.NotCut | LTE-Free-Client-Program/client_udp.cpp:79-117 | no good message is cut by the receive buffer |
| Messages.AckSplit | LTE-Free-Client-Program/client_udp.cpp:257-280 | the REGISTER_ACK test recovers exactly the printed proxy nonce, and only from an answer to this client |
| Messages.PrintInjective | LTE-Free-Proxy-Server-Program/proxy_udp.cpp:130-202 | no two good messages print alike |
| Messages.MadeNonceGood | LTE-Free-Client-Program/client_udp.cpp:30-39 | made nonces are non-empty, free of colons and short enough |
| Messages.MadeNonceFresh | LTE-Free-Proxy-Server-Program/proxy_udp.cpp:30-39 | made nonces are equal only for the same role, process and clock reading |
| Retry.Pacing | LTE-Free-Client-Program/client_udp.cpp:226-251 | the first time asked is a send; sends are at times asked, at least 500 ms apart, all within 20000 ms of the start |
| Retry.NoneSkipped | LTE-Free-Client-Program/client_udp.cpp:243-251 | for every clock that does not run back, whenever the timer is asked a message has left within the last 500 ms |
| Retry.AtMostForty | LTE-Free-Client-Program/client_udp.cpp:356-414 | at most 40 messages of a kind leave in one call, for any clock |
| ClientUdp.ControlStepOnPrinted | LTE-Free-Client-Program/client_udp.cpp:466-528 | on every good message, printed and received, the text loop does what the message says |
| ClientUdp.RegisterStepOnPrinted | LTE-Free-Client-Program/client_udp.cpp:257-280 | registration accepts exactly this client's REGISTER_ACK and takes exactly its proxy nonce |
| ClientUdp.RegisterStepExactly | LTE-Free-Client-Program/client_udp.cpp:257-280 | of all texts exactly the REGISTER_ACKs to this client with a non-empty proxy nonce register it, with that nonce |
| ClientUdp.ControlStepExactly | LTE-Free-Client-Program/client_udp.cpp:141-204 | of all texts exactly STOP, LEARN_READY and READY_ACK of this pair do anything, and exactly raise their flags |
| ClientUdp.ControlRunExactly | LTE-Free-Client-Program/client_udp.cpp:466-528 | over any texts each flag ends up exactly if it was or its own text is among those the loop gets to, up to the first own STOP or another thread's flag; nothing else changes |
| ClientUdp.OnlyOwnStopStops | LTE-Free-Client-Program/client_udp.cpp:141-158 | of all texts exactly one stops a session: the STOP of its own pair of nonces |
| ClientUdp.ClientReadyState.ClientUdpControlLoop | LTE-Free-Client-Program/client_udp.cpp:466-528 | the fields end as `ControlRunExactly` says |
| ClientUdp.ClientReadyState.RunClientUdpRegister | LTE-Free-Client-Program/client_udp.cpp:208-289 | REGISTER leaves exactly when the timer says; success is at the first answer and takes over its nonce; failure changes nothing and has one of the stated reasons |
| ClientUdp.ClientReadyState.RunClientReadyHandshake | LTE-Free-Client-Program/client_udp.cpp:325-420 | CLIENT_READY leaves exactly when the timer says; success is three START_ACKs after the READY_ACK flag and sets only `ready_done`; failure has one of the stated reasons |
| ProxyUdp.ControlStepOnPrinted | LTE-Free-Proxy-Server-Program/proxy_udp.cpp:488-605 | as for the client, with the repeated REGISTER_ACK and the client's address, which CLIENT_READY renews |
| ProxyUdp.RegisterStepOnPrinted | LTE-Free-Proxy-Server-Program/proxy_udp.cpp:130-138 | registration accepts exactly the REGISTERs and takes exactly the printed nonce and the sender's address |
| ProxyUdp.ParseExactly | LTE-Free-Proxy-Server-Program/proxy_udp.cpp:130-138 | of all texts exactly the prefix followed by a non-empty nonce is a REGISTER |
| ProxyUdp.ControlStepExactly | LTE-Free-Proxy-Server-Program/proxy_udp.cpp:141-194 | of all texts exactly this session's STOP, CLIENT_READY, START_ACK and REGISTER do anything: flags, address, answer |
| ProxyUdp.ControlRunExactly | LTE-Free-Proxy-Server-Program/proxy_udp.cpp:488-605 | over any texts each flag ends up exactly if it was or its own text is among those the loop gets to |
| ProxyUdp.OnlyOwnStopStops | LTE-Free-Proxy-Server-Program/proxy_udp.cpp:177-194 | of all texts exactly the STOP of this pair stops the session; besides it only a REGISTER of its own that cannot be answered raises `stop` |
| ProxyUdp.ProxyReadyState.ProxyUdpControlLoop | LTE-Free-Proxy-Server-Program/proxy_udp.cpp:488-605 | over any texts from any senders the answers and their addressees are those of the single steps, and the flags end as `ControlRunExactly` says |
| ProxyUdp.ProxyReadyState.RunProxyUdpRegister | LTE-Free-Proxy-Server-Program/proxy_udp.cpp:283-351 | the first REGISTER fixes the client's nonce and address and is answered there with the pair; failure is a bad descriptor, a stop, the timeout or a failed answer |
| ProxyUdp.ProxyReadyState.RunProxyReadyHandshake | LTE-Free-Proxy-Server-Program/proxy_udp.cpp:355-440 | READY_ACK leaves, in rounds that see CLIENT_READY, exactly when the timer says, to the address known at the start; done at the first START_ACK flag without a stop |
| Learning.MirroredIffSameNumbers | LTE-Free-Client-Program/client_nfqueue.cpp:243-261 | two ends learn equal bases and mirrored filters if and only if their markers agree in flow and both numbers |
| Learning.AllowedExactly | LTE-Free-Proxy-Server-Program/proxy_nfqueue.cpp:291-327 | after learning from a marker each filter lets exactly two segments pass: the far end's pure ACK and its keepalive probe, in terms of the marker's numbers |
| Learning.OptionsDoNotMatter | LTE-Free-Client-Program/client_nfqueue.cpp:349-410 | the decision on a packet is that on the segment laid out in it, whatever its options and trailing octets |
| Learning.OptionsOnControlSegments | LTE-Free-Client-Program/client_nfqueue.cpp:277-313 | an allowed ACK passes, and a marker is one, with options as without |
| Learning.DecideExactly | LTE-Free-Proxy-Server-Program/proxy_nfqueue.cpp:363-429 | the kernel gets exactly the allowed control ACKs; the TUN gets exactly the well-formed payloads of at most 1400 octets while the data plane is open |
| Learning.MarkerDropped | LTE-Free-Proxy-Server-Program/proxy_nfqueue.cpp:363-429 | a retransmitted marker reaches neither kernel nor TUN through the filter |
| Learning.TunnelDelivers | LTE-Free-Client-Program/client_nfqueue.cpp:349-410 | what the far side built goes to the TUN octet for octet if and only if the data plane is open and it is well-formed; never to the kernel |
| Learning.LearningContext.ClientLearningCallback | LTE-Free-Client-Program/client_nfqueue.cpp:211-274 | every packet passes; exactly a marker of the connection sets all bases and the filter, as `ClientLearns` says |
| Learning.LearningContext.ProxyLearningCallback | LTE-Free-Proxy-Server-Program/proxy_nfqueue.cpp:218-289 | the same for the proxy |
| Learning.TunnelState.TunnelCallback | LTE-Free-Client-Program/client_nfqueue.cpp:349-410 | verdict and session error are those of the decision on the raw packet; the TUN is offered exactly the inner packet of a tunnelled segment |
| Session.ClientStepKeeps | LTE-Free-Client-Program/main.cpp:86-324 | every act of a client keeps its invariant, takes nothing back, and sends only what its record bears out |
| Session.ProxyStepKeeps | LTE-Free-Proxy-Server-Program/main.cpp:96-490 | the same for a proxy session |
| Session.NextKeeps | LTE-Free-Proxy-Server-Program/main.cpp:96-490 | every event keeps the invariant over both sides and all seven message kinds |
| Session.DataPlaneNeedsBoth | LTE-Free-Proxy-Server-Program/main.cpp:173-417 | in every run, an open data plane or a finished handshake on either side means both sides hold the same pair of nonces, have learned, and have had their tunnel queue up |
| Session.MarkerAfterLearnReady | LTE-Free-Client-Program/client_udp.cpp:291-322 | in every run, a client that may write the marker holds a session whose learning queue is up |
| Session.StopsComeFromThePair | LTE-Free-Proxy-Server-Program/proxy_udp.cpp:498-515 | in every run, a side that took a STOP holds a pair for which one of its two holders sent it |
| Session.NothingTakenBack | LTE-Free-Client-Program/client_udp.cpp:474-523 | over any stretch of any run registered nonces and learned bases never change, received flags only latch and phases only go forward |
| Session.TextLoopsTakeTheseSteps | LTE-Free-Client-Program/client_udp.cpp:466-528 | for every message sent in any run and every endpoint, the text loops take exactly the step of the run |
| Tunnel.Outer | LTE-Free-Client-Program/client_raw.cpp:87-138 | an injected packet is, to the far parser, a segment with the given numbers and the packet as payload |
| Tunnel.FilterHoldsKernel | LTE-Free-Client-Program/client_nfqueue.cpp:277-313 | no segment the filter allows, forged ones included, moves next-send or next-receive or delivers an octet |
| Tunnel.ArrivesAtProxy | LTE-Free-Proxy-Server-Program/proxy_nfqueue.cpp:363-429 | what an arrival does, in full: when the kernel takes the segment, and that the TUN gets exactly the whole payload of a queued well-formed packet once the data plane was open and the write is made |
| Tunnel.ArrivesAtClient | LTE-Free-Client-Program/client_nfqueue.cpp:349-410 | the same for the client |
| Tunnel.ReachProxyKeepsLink | LTE-Free-Proxy-Server-Program/proxy_nfqueue.cpp:291-429 | whatever segment reaches the proxy, kernel, filter and TUN keep the invariant of the connection |
| Tunnel.ReachClientKeepsLink | LTE-Free-Client-Program/client_nfqueue.cpp:277-410 | the same for the client |
| Tunnel.MarkerCountsOnce | LTE-Free-Proxy-Server-Program/proxy_nfqueue.cpp:149-216 | the marker moves the proxy's kernel by one octet, however often it arrives |
| Tunnel.SystemNextKeeps | LTE-Free-Client-Program/client_nfqueue.cpp:277-410 | every event of the whole system keeps the invariant |
| Tunnel.HiddenConnectionStandsStill | LTE-Free-Proxy-Server-Program/proxy_nfqueue.cpp:291-429 | in every run, on a connection whose two ends registered with each other and have not removed their rules, the kernels have exchanged at most the marker, and after learning their numbers are the fake bases |
| Tunnel.IdleTrafficPasses | LTE-Free-Client-Program/client_nfqueue.cpp:277-313 | on a connection whose two ends registered with each other and have not removed their rules, every ACK or probe the client's kernel may send passes a proxy filter that has learned; those of the proxy's kernel pass a client filter that has learned if and only if the marker has arrived |
| Tunnel.FilteredKernelsStandStill | LTE-Free-Proxy-Server-Program/proxy_nfqueue.cpp:626-729 | over any stretch of any run in which a side's rule stays in place its kernel's numbers and octets do not change, whoever else is about |
| Tunnel.BasesAgreeIffSameConnection | LTE-Free-Proxy-Server-Program/proxy_nfqueue.cpp:254-269 | from when the proxy is done with the handshake, both ends have equal bases and mirrored filters if and only if the session accepted that client's connection, retransmissions or not |
| Tunnel.TunnelIntegrity | LTE-Free-Proxy-Server-Program/proxy_nfqueue.cpp:363-429 | in every run each packet written to one TUN was read from the other, octet for octet, and none before the local data plane opened |
| Scenarios.SessionsCanSucceed | LTE-Free-Client-Program/main.cpp:86-266 | for all nonces, flows and numbers a run opens both data planes |
| Scenarios.PacketsGetThrough | LTE-Free-Proxy-Server-Program/proxy_nfqueue.cpp:400-428 | for all nonces, flows and numbers a run brings any well-formed packet of at most 1400 octets from either TUN to the other |
| Scenarios.ConnectionSettles | LTE-Free-Client-Program/client_nfqueue.cpp:277-313 | for all numbers a run acknowledges the marker through the filter, and from then on the keepalive probes of both kernels pass |
| Scenarios.ClientStopsProxy | LTE-Free-Client-Program/main.cpp:270-290 | a run in which the client's STOP takes the proxy down too, without a STOP of its own |
| Scenarios.ProxyStopsClient | LTE-Free-Proxy-Server-Program/main.cpp:441-452 | the other way round |
| Scenarios.AlwaysCanEnd | LTE-Free-Client-Program/main.cpp:270-290 | from every state of every run either side can get to where its rule is gone |
| Scenarios.EarlyAckDropped | LTE-Free-Client-Program/client_nfqueue.cpp:277-313 | for all numbers a run reaches a point where the client's filter drops a pure ACK of the proxy's kernel |
| Scenarios.CrossedBasesDiffer | LTE-Free-Proxy-Server-Program/proxy_udp.cpp:327-336 | with two live clients whose connections start from different numbers a run reaches a finished handshake between ends with different real and different fake bases |
| Routes.ScanWords | LTE-Free-Client-Program/client_control.cpp:111-129 | of a printed default route exactly gateway, interface and source are read back, whatever its other attributes |
| Routes.AddThenDelete | LTE-Free-Client-Program/client_control.cpp:62-85 | a route added to table and list is taken back with the list |
| Routes.DetourTakenBackIffPlain | LTE-Free-Client-Program/client_control.cpp:140-165 | replacing and restoring the default route gives the old table if and only if the route in use had metric 0 and no further attribute |
| Routes.MetricNotTakenBack | LTE-Free-Client-Program/client_control.cpp:140-165 | a default route with a metric: afterwards a second default route is left |
| Routes.AttributeNotTakenBack | LTE-Free-Client-Program/client_control.cpp:151-165 | a default route with an attribute the client does not read: the attribute is lost |
| Routes.RouteSnapshot.LoadDefaultRoute | LTE-Free-Client-Program/client_control.cpp:87-138 | the word loop ends with the fields of the scan; it succeeds exactly if a line was printed and gateway and interface are known |
| Routes.RouteSnapshot.AddRoute | LTE-Free-Client-Program/client_control.cpp:62-73 | on success table and list grow together, else neither; what the cleanup would leave is unchanged |
| Routes.RouteSnapshot.ReplaceDefaultRouteToTun | LTE-Free-Client-Program/client_control.cpp:140-149 | on success the default route is the TUN and the flag is set, else nothing changes |
| Routes.RouteSnapshot.RestoreDefaultRoute | LTE-Free-Client-Program/client_control.cpp:151-165 | exactly the default route of metric 0 is set to the saved three fields, if it was changed |
| Routes.RouteSnapshot.CleanupRoutes | LTE-Free-Client-Program/client_control.cpp:75-85 | exactly the listed routes via the saved hop are deleted |
| Lifecycle.Host.Close | LTE-Free-Client-Program/main.cpp:302-324 | may be called only on an open descriptor that no running thread may use |
| Lifecycle.ClientMain.Cleanup | LTE-Free-Client-Program/main.cpp:270-324 | from any point of `main`, descriptors, threads, rules and routes are back to those at entry, in the stated order of calls |
| Lifecycle.ClientMain.Run | LTE-Free-Client-Program/main.cpp:86-324 | on every exit path each descriptor is closed once and not while in use, rules and added routes are gone; rules come and threads start in the stated order and are taken back in the stated order; the default route is replaced exactly for the stated outcomes and then back exactly if it had metric 0 and no further attribute; the exit code is 0 exactly if every step succeeded |

## Left out

- System calls, sockets, `select`, TUN `ioctl`, the queue library and the text of `iptables` and `ip` commands: only their outcomes (octets, success or failure, tables) are kept.
- Logging, packet printing, argument parsing, signal installation, and the MAC, ARP and Ethernet helpers: no effect on the modelled state.
- Progress of the handshake under loss: LEARN_READY is sent once and awaited without a timeout, so both sides can wait forever; only safety is proved, and that success is possible.
- Rule leaks in the proxy when its control thread raises `stop` between an install and the flag that records it (LTE-Free-Proxy-Server-Program/main.cpp:200-207): the session system removes a rule whenever a side has one.
- NAT rules of both proxies, including the partial setup that the TCP proxy does not undo.
- Who may send from which UDP address: the programs do not check senders, and the session system gives every message any sender.
- `wait_for_proxy_learn_ready`: a polling loop, kept as the event that sees the flag.
- Kernel queues for out-of-order payload, resets, window and options: a segment that would touch them marks the kernel as disturbed, and the proofs show it does not happen while both ends are open.
- TCP keepalive giving up and resetting the control connection: a matter of progress.
- A segment that passed netfilter just before a rule was inserted and reaches the kernel just after: netfilter's verdict and the kernel's taking of the segment are one event.
- Packet order, loss and duplication inside the raw tunnel: the far TUN gets a subset of what was read, as raw segments promise no more.
- ClientUdp.ClientReadyState.RunClientUdpRegister: takes the clock as never before the start of the call; reading an earlier clock would wrap the unsigned difference.
- Lifecycle.ClientMain.Run: the undo commands (`iptables -D`, `ip route del`, `ip route replace`) are taken to succeed, and nobody else changes the host meanwhile.
- Lifecycle.ClientMain.Run: the STOP message and the stop flags of the cleanup are events of the session system.
