# sleep-proxy, modelled and verified in Dafny

sleep-proxy impersonates a sleeping host: it takes over the host's addresses, installs firewall rules, waits
for a TCP SYN while watcher threads look for reasons to give up, then undoes everything, sends Wake-on-LAN,
pings the host and replays the SYN. This project models that behaviour and proves what it promises.

Layout, one module a file:

- `Net` has the shared addresses and bytes.
- `Firewall` has the iptables chains and interface addresses, the guards that edit them, and the conservation
  invariant: every chain is a permutation of the live guards' rules in front of the original chain.
- `Capture` has the SYN capture and the watcher threads that may break it, `Emulation` one host thread with its
  guards, `System` all host threads, the signal handler and the kernel tables as one state machine. A run is any
  sequence of actions, so every interleaving, every failing `add` and every order of guard destruction is a run.
  `Guarantees`, `Responses`, `Watchers`, `Verdicts`, `Release` and `Overlap` hold the theorems about all runs.
- `Ownership` has `Scope_guard` as a class, and all histories of constructing, moving, freeing and destroying.
- `Wire` and `Magic` have packet parsing, replay, and the wake frame with its recogniser.
- `Text`, `Numbers`, `IpText`, `U32`, `Commands`, `Filter` and `ConfigFile` have the text codecs. `Execution` reads
  command lines as iptables and ip do, with words of its own, and so ties the texts to the tables of `Firewall`;
  `U32` and `Filter` have such readers for the `u32` match and the capture filter.

Where a loop or object in the C++ code changes state step by step, a method or class with the same steps is
proved equal to a specification function, and the lemmas are about that function. The threads are modelled as
single atomic steps instead: `break_loop` is two steps, the reason first and the request second, and a signal
handler takes `pcaps_mutex`, visits each registered capture with these two steps, and releases the mutex. Signals
may arrive at any time, also before a capture is registered; then that capture is not broken by them.

Findings where the code does less than one would expect, each a lemma with its exact condition:

- A tagged capture is replayed with its VLAN tag behind an IP ethertype. Replay keeps the IP header of a capture
  exactly when there is no tag, or certain bytes of tag and header agree so that the header reads the same four bytes
  earlier (`Wire.ReplayKeepsHeaderIff`, which for IPv4 needs equal source and destination). `Wire.TaggedFrameIsLost`
  is an input that fails with every tag.
- If a packet ends where its link header or tag announces an IP packet, `parse_ip` reads one byte behind the end, the
  parameter `stray`. That byte changes the outcome for exactly those packets (`Wire.StrayIrrelevantIff`), between
  "not enough data" and a missing IP header (`Wire.StrayDecides`).
- An interface name that is empty or has a space changes the arguments of the `ip addr` command
  (`Commands.CommandTokenises` is an if-and-only-if). Validation lets the empty name pass.
- `str_to_integral` ignores the letters it accepts: an accepted string is read as a whole if and only if it is a
  string of digits (`Numbers.AcceptedIsReadWholeIff`); "1f" is 1, and "f" is 0 with a C library that keeps `errno`
  when there are no digits (`Numbers.LettersAreIgnored`). A string of digits is never misread
  (`Numbers.DigitsNeverWrap`, `Numbers.SignedDigitsNeverWrap`).
- The drop rule takes more than the capture filter: a dropped packet wakes the host if and only if it is IPv4 and has
  no flag but SYN (`Verdicts.DroppedIsCapturedIff`). So a SYN over IPv6, or one that negotiates ECN, is dropped without
  a wake (`Verdicts.LostSyns`). That `tcp[...]` holds of IPv4 packets only is documented in pcap-filter(7).
- With a shared address the wake may be sent while another host holds it. Every wake finds the host's address gone
  if and only if the host's own addresses can never all be added, or no other host with the same interface can add that
  address (`Overlap.WakeAfterReleaseIff`, on the configurations and the initial kernel). `Release.WakeAfterRelease` is
  the plain property where no other host lists the address, `Overlap.SharedAddressWitness` a failing run.

Assumptions: `iptables -w` makes each command atomic, a `del` of a present rule or address succeeds, a failed
`add` changes nothing, and no other process edits the chains or addresses in between.

## Model

| member | source | states |
|---|---|---|
| Guarantees.DeletesNeverMiss | src/sleep-proxy/scope_guard.cpp:89-107 | In every run no `del` and no unregistration misses its object, for any number of hosts, any failing `add` and any order of deletion |
| Guarantees.EveryChainConserved | src/sleep-proxy/scope_guard.cpp:116-154 | In every reachable state each chain is some order of exactly the live guards' rules in front of the unchanged original chain |
| Guarantees.EveryAddressConserved | src/sleep-proxy/scope_guard.cpp:109-114 | In every reachable state an address is on an interface if and only if it was there originally or one live guard, and only one, holds it |
| Guarantees.CleanTermination | src/watchHost.cpp:38-92 | When all host threads have finished, all four chains and all interface addresses equal the originals |
| Guarantees.BreaksOnlyLiveCaptures | src/sleep-proxy/libsleep_proxy.cpp:99-118 | No `break_loop` ever reaches a dead capture; once it is dead its watchers are joined, it is not in `pcaps` and the handler is not going to visit it, also when building the guards threw midway |
| Guarantees.LoopNeverUnset | src/sleep-proxy/pcap_wrapper.cpp:138-172 | A returning SYN capture gives `packets_captured` exactly when `pcap_loop` gave 0, else a reason that some `break_loop` wrote, which is `signal` or `duplicate_address`, never `unset` |
| Guarantees.StatusHasCause | src/sleep-proxy/libsleep_proxy.cpp:233-253 | `duplicate_address` implies a positive occupancy check or a magic packet, `signal_received` implies the handler or a caught exception, `undefined_error` never happens |
| Guarantees.CauseIsEvent | src/sleep-proxy/duplicate_address_watcher.cpp:110-150 | Each recorded cause is an action of the run since this host's capture was opened: a magic packet for the host's own mac, an occupied check, an exception, or the handler at the registered, live capture |
| Watchers.EventIsCause | src/sleep-proxy/duplicate_address_watcher.cpp:122-135 | The converse: every occupied check, exception, magic packet and handler visit since the capture was opened is recorded as a cause |
| Watchers.ChecksAreReported | src/sleep-proxy/duplicate_address_watcher.cpp:110-150 | Once its watchers are joined, a capture with an occupied check has been broken with `duplicate_address`, and one with an exception with `signal` |
| Watchers.MagicPacketsAreReported | src/sleep-proxy/wol_watcher.cpp:33-63 | If the Wake-on-LAN thread ended without being stopped and its inner capture did not end by itself, every magic packet it saw has broken the capture with `duplicate_address` |
| Watchers.WatchIsKept | src/sleep-proxy/duplicate_address_watcher.cpp:122-130 | While its watcher is not stopped, a duplicate-address thread ends only after an occupied check or an exception |
| Watchers.InnerReasonIsLastWritten | src/sleep-proxy/wol_watcher.cpp:90-95 | The inner capture's reason is the one written last: `unset` by a stop, `duplicate_address` by a magic packet for the host's mac, so a stopped watcher reports only what it sees afterwards |
| Watchers.SolicitationsAreDropped | src/sleep-proxy/duplicate_address_watcher.cpp:138-144 | While an IPv6 address is checked for duplicates, the rule that drops neighbour solicitations for it is in the input chain |
| Watchers.SolicitationsAreIpv6 | src/sleep-proxy/duplicate_address_watcher.cpp:172-174 | No solicitation rule is ever installed for an IPv4 address, which `ipv6_to_u32_rule` would refuse |
| Guarantees.RoundsAreBounded | src/watchHost.cpp:38-63 | After the signal flag is set a host thread starts at most one emulation, and a further round follows only `success` or `duplicate_address` |
| Responses.HandlerBreaksAll | src/sleep-proxy/libsleep_proxy.cpp:58-64 | Whenever the handler releases the mutex, every capture in `pcaps` has been given the reason `signal` and then a break request |
| Responses.SignalIsServed | src/sleep-proxy/libsleep_proxy.cpp:58-64 | From every reachable state in which the mutex is free, a signal can run its handler through, and then every registered capture has been broken |
| Responses.ExceptionIsServed | src/watchHost.cpp:49-60 | An emulation that ends in an exception raises the signal, whose handler can break every registered capture in the same way |
| Responses.OneStartAfterSignal | src/watchHost.cpp:40-50 | Behind any arrival of a signal in any run, a host thread starts at most one emulation |
| Responses.OnlySilentHostsAreEmulated | src/watchHost.cpp:42-50 | An emulation starts only in a round in which every ping but the last was answered and the last was not |
| Responses.AnswerDecides | src/watchHost.cpp:42-50 | Without a signal a host that answers is pinged again, and one that does not answer can be emulated next |
| Responses.NextRoundIff | src/watchHost.cpp:40-61 | After an emulation the thread pings again if and only if it ended in `success` or `duplicate_address` and no signal came; else it finishes |
| Responses.SuccessIffAnswered | src/sleep-proxy/libsleep_proxy.cpp:255-284 | An emulation returns `success` exactly when it has shielded the client, sent the wake, had an answer, replayed the SYN and lifted the shield, and `wake_failure` exactly when it did so without an answer |
| Guarantees.ShieldedBeforeAddressed | src/sleep-proxy/libsleep_proxy.cpp:76-90 | Every address that was not there originally belongs to a host, and until that host releases its guards all reject and drop rules for it are in the chains |
| Guarantees.ClientShielded | src/sleep-proxy/libsleep_proxy.cpp:259-284 | From the first released guard to the end of the call the rule that drops ICMP unreachable messages to the sender of the captured packet is in its output chain, on throwing paths too |
| Responses.CaptureIsPrepared | src/sleep-proxy/libsleep_proxy.cpp:99-118 | A capture runs only when it was opened, every watcher and the registration were built and the filter was installed, all without a failure |
| Responses.FateIsSealed | src/sleep-proxy/libsleep_proxy.cpp:239-253 | Once a wait has ended with `signal`, `duplicate_address` or an exception, the emulation returns exactly that in every continuation |
| Release.WakeAfterRelease | src/sleep-proxy/libsleep_proxy.cpp:262-268 | In every run, if no other host with the same interface lists the address, it is gone from the interface whenever the host's wake is sent |
| Overlap.WakeAfterReleaseIff | src/sleep-proxy/libsleep_proxy.cpp:76-90 | No run sends the host's wake with the address present, if and only if the host's addresses do not all fit or no other host with the same interface can take that address, for all configurations and initial kernels |
| Overlap.TakenIsUnreleased | src/watchHost.cpp:78-82 | Where the host's addresses fit and another host can take one of them, there is a run in which the wake is sent with that address present |
| Overlap.SharedAddressWitness | src/watchHost.cpp:78-82 | Two hosts with the same single address on the same interface have such a run |
| Release.UnreleasedIsTaken | src/sleep-proxy/libsleep_proxy.cpp:262-268 | A wake that finds the address present means that all the host's addresses fit and that another host could take this one |
| Release.FitsIff | src/sleep-proxy/libsleep_proxy.cpp:76-90 | The guards up to some address add only new addresses if and only if those addresses are absent at the start and differ from each other |
| Verdicts.EmulatedVerdict | src/sleep-proxy/scope_guard.cpp:116-131 | While a host is emulated, with disjoint hosts and any interleaving, first match drops a SYN to a listed address and port and rejects all other TCP and all UDP to its addresses |
| Verdicts.OtherTrafficUnaffected | src/sleep-proxy/scope_guard.cpp:141-154 | In every reachable state TCP and UDP to an address that no host lists get the verdict of the original chain |
| Verdicts.CapturedIsDropped | src/sleep-proxy/libsleep_proxy.cpp:76-90 | Every packet that the filter's meaning accepts is one the firewall drops silently in that state |
| Filter.FilterTextReads | src/sleep-proxy/libsleep_proxy.cpp:198-205 | A reader with its own grammar reads the generated text as a test for exactly the flag SYN, for the given addresses as destination and the given ports as destination, and as no filter when one of the lists is empty |
| Filter.FilterTextMeans | src/sleep-proxy/libsleep_proxy.cpp:198-205 | The text as read, with its flags and its sides, accepts exactly the packets that `FilterAccepts` says |
| Filter.GeneratedFilterIsShielded | src/sleep-proxy/libsleep_proxy.cpp:112-118 | In every state while capturing, a packet that the generated filter text accepts is silently dropped by the firewall, for every address list and port list |
| Verdicts.DroppedIsCapturedIff | src/sleep-proxy/libsleep_proxy.cpp:198-205 | A dropped packet to an emulated address is a TCP segment, and wakes the host if and only if it is IPv4 and SYN is its only flag |
| Verdicts.LostSyns | src/sleep-proxy/libsleep_proxy.cpp:201-201 | In every state while capturing, a SYN to a listed address and port over IPv6, or with ECE and CWR, is dropped by the chain and not accepted by the filter |
| Verdicts.RunOrdered | src/sleep-proxy/libsleep_proxy.cpp:76-90 | In every run of hosts with disjoint address lists, whatever the other hosts and watchers insert or delete, a host's own rules stand in the input chain exactly in reverse order of insertion |
| Verdicts.PlanVerdict | src/sleep-proxy/libsleep_proxy.cpp:78-88 | A completely installed plan drops or rejects exactly the packets for its addresses |
| Emulation.SetupFirewallAndIps | src/sleep-proxy/libsleep_proxy.cpp:76-90 | The nested loops construct exactly the plan, in its order |
| Emulation.PlanShieldsFirst | src/sleep-proxy/libsleep_proxy.cpp:79-87 | In the plan every rule for an address comes before the address itself |
| Emulation.HostMoveKeeps | src/sleep-proxy/libsleep_proxy.cpp:233-284 | Every step of a host thread or one of its watchers keeps the host's invariant |
| Emulation.HostMoveLive | src/sleep-proxy/scope_guard.cpp:77-107 | Every step changes the multiset of live guards by exactly the `add` or `del` it performs, and a `del` is of a live guard |
| Capture.WatcherStepKeeps | src/sleep-proxy/wol_watcher.cpp:50-63 | A watcher step breaks the capture only while it is alive and only after a reason with a cause was written, and leaves the guards alone |
| Capture.DawMoveKeeps | src/sleep-proxy/duplicate_address_watcher.cpp:110-150 | Each step of a duplicate-address thread performs only permitted operations on the capture and keeps the thread's invariant |
| Capture.WolMoveKeeps | src/sleep-proxy/wol_watcher.cpp:33-63 | The same for the Wake-on-LAN thread, whose inner capture alone is broken with `unset` |
| Emulation.StopMoveKeeps | src/sleep-proxy/wol_watcher.cpp:90-95 | Stopping the watchers, in any order, keeps the session invariant and does not touch the SYN capture's reason |
| System.RunKeeps | src/watchHost.cpp:78-87 | The invariant of conservation, registration and handler holds after every run from every kernel and host list |
| System.HandlerWriteKeeps | src/sleep-proxy/libsleep_proxy.cpp:58-64 | The handler's write reaches only a registered and therefore live capture, and keeps the invariant |
| System.PcapsAfter | src/include/scope_guard.h:123-147 | Registration and unregistration keep `pcaps` duplicate free and equal to the registered captures, and never fault |
| Firewall.RemoveFirstInPrefix | src/sleep-proxy/scope_guard.cpp:91-96 | Deleting the first equal rule takes it out of the program's own prefix and leaves the original rules alone, even if they hold an equal rule |
| Firewall.NothingLiveIsOriginal | src/sleep-proxy/scope_guard.cpp:89-96 | With no live guard left all chains and addresses are the original ones |
| Ownership.EveryAddOwnedOnce | src/sleep-proxy/scope_guard.cpp:77-96 | Over every history of constructions, moves, frees and destructions a successful `add` has one owner or one `del` behind it, a failed one neither |
| Ownership.DestroyedAllDeletedAll | src/sleep-proxy/scope_guard.cpp:84-96 | When all objects are gone each successful `add` was deleted exactly once, and a failed one never |
| Ownership.ScopeGuard.Free | src/sleep-proxy/scope_guard.cpp:91-96 | Runs the `del` if and only if the guard was not freed, and marks it freed |
| Ownership.ScopeGuard.Move | src/sleep-proxy/scope_guard.cpp:84-87 | The new guard takes over the state, and the old one is freed without a command |
| Ownership.Acquire | src/sleep-proxy/scope_guard.cpp:79-82 | Construction runs the `add` once; if it works the new guard owns it, and if it fails there is no guard and nothing to delete |
| Ownership.Build | src/sleep-proxy/libsleep_proxy.cpp:76-90 | Building a whole vector of guards gives one that holds all of them, or, when an `add` fails, deletes exactly what was added before it |
| Ownership.OwedIsHeld | src/sleep-proxy/scope_guard.cpp:89-96 | The `del`s that a vector of guard objects owes are for exactly the guards that its slots hold in the system's conservation invariant |
| Ownership.Grow | src/include/scope_guard.h:59-62 | Moving a whole vector to new storage keeps what it stands for and owes, runs no command and leaves the old storage owing nothing |
| Ownership.Clear | src/sleep-proxy/libsleep_proxy.cpp:262-262 | Clearing runs exactly the `del`s still owed, each once |
| Wire.GetHeaders | src/sleep-proxy/packet_parser.cpp:34-65 | The moving cursor reads exactly the fields that the specification names by absolute offset, or throws as it does |
| Wire.ParseLinuxCookedCapture | src/include/ethernet.h:65-98 | Fields and exceptions of a cooked header, from any cursor position |
| Wire.ParseEthernet | src/include/ethernet.h:100-119 | Fields and exceptions of an Ethernet header, from any cursor position |
| Wire.ParseVlanHeader | src/include/ethernet.h:121-132 | Fields and exceptions of a VLAN tag |
| Wire.ParseLinkLayer | src/include/ethernet.h:134-147 | Dispatch on the link type, with no header for an unknown one |
| Wire.ParseIpv4 | src/include/ip.h:82-100 | Fields and exceptions of an IPv4 header |
| Wire.ParseIpv6 | src/include/ip.h:102-119 | Fields and exceptions of an IPv6 header |
| Wire.ParseIp | src/include/ip.h:121-137 | Dispatch on the ethertype after the version check |
| Wire.LinkThrowsIff | src/include/ethernet.h:65-147 | Exactly which packets have no or no acceptable link header, by their length and the bytes of device type and address size |
| Wire.IpThrowsIff | src/include/ip.h:82-137 | An IP header is refused exactly when the version fits the ethertype and fewer than 20, respectively 40, bytes are left |
| Wire.ParsingInvertsEncoding | src/sleep-proxy/packet_parser.cpp:34-65 | Parsing any frame of a cooked or Ethernet header, at most one VLAN tag, an IPv4 or IPv6 header and any payload gives exactly the encoded fields |
| Wire.StrayIrrelevantIff | src/include/ip.h:121-126 | Parsing does not depend on the byte read behind the end, if and only if the packet does not end where an IP packet is announced |
| Wire.StrayDecides | src/include/ip.h:65-78 | For a packet that ends there, one stray byte gives an exception and another a missing IP header |
| Wire.ReplayData | src/sleep-proxy/libsleep_proxy.cpp:164-181 | The injected frame, or the exception or null dereference, is the specified one |
| Wire.ReplayPreservesUntagged | src/sleep-proxy/libsleep_proxy.cpp:164-181 | Parsing the rebuilt frame as Ethernet gives the captured IP header, sender and ethertype, and the bytes after the link header are the captured ones |
| Wire.ReplayKeepsHeaderIff | src/sleep-proxy/libsleep_proxy.cpp:164-181 | The replayed frame parses to the captured IP header if and only if the capture has no VLAN tag or certain bytes of tag and header agree |
| Wire.TaggedKeepsHeaderIff | src/sleep-proxy/libsleep_proxy.cpp:173-178 | For a tagged capture the condition is on those bytes alone, and over IPv4 it forces source and destination to be equal |
| Wire.ReplayOfTagged | src/sleep-proxy/libsleep_proxy.cpp:173-178 | A replayed tagged capture parses as whatever the bytes from the tag on are, and has no IP header exactly when the tag's first nibble is not the IP version |
| Wire.TaggedFrameIsLost | src/sleep-proxy/libsleep_proxy.cpp:173-178 | A SYN between two addresses, captured with any VLAN tag, is parsed on capture and has lost its IP header in the replayed frame |
| Wire.Catcher.Call | src/sleep-proxy/packet_parser.cpp:70-88 | After every callback either nothing is kept or the headers are those of the kept data; an exception empties both |
| Wire.CaughtIsReplayable | src/sleep-proxy/libsleep_proxy.cpp:145-173 | A capture that got past the check for an IP header is replayed without meeting a missing one |
| Wire.CreateEthernetHeader | src/sleep-proxy/ethernet.cpp:49-58 | The pushed bytes are the two addresses and the big-endian ethertype that the parser reads back |
| Magic.CreateWolPayload | src/sleep-proxy/wol.cpp:27-37 | The loop builds six 0xFF and sixteen repetitions of the address |
| Magic.PayloadAt | src/sleep-proxy/wol.cpp:27-37 | The payload has 102 bytes, byte by byte |
| Magic.OnlyBehindHeader | src/sleep-proxy/wol.cpp:92-93 | In a wake frame the pattern for any address can only match at offset 14 |
| Magic.FrameIsAddressed | src/sleep-proxy/wol.cpp:87-93 | The frame's destination and source are the ones given, its ethertype is 0x0842 and the payload follows |
| Magic.FrameRecognisedIff | src/sleep-proxy/wol_watcher.cpp:23-31 | The wake frame is a magic packet for exactly the target address, for every destination and source |
| Magic.DatagramRecognisedIff | src/sleep-proxy/wol.cpp:66-74 | The datagram is a magic packet for exactly the target address |
| U32.LoadCancels | src/sleep-proxy/int_utils.cpp:67-72 | On either byte order the host-order load and `htonl` give the network-order word |
| U32.HexRoundTrip | src/sleep-proxy/int_utils.cpp:67-72 | Fixed-width hexadecimal text reads back as the number |
| U32.Ipv6ToU32Rule | src/sleep-proxy/scope_guard.cpp:49-74 | The text has the tests 48, 52, 56 and 60 for the address words, whatever the host's byte order; IPv4 is refused |
| U32.RuleMatchesIff | src/sleep-proxy/scope_guard.cpp:49-74 | The rule text, read as `u32` tests, matches a neighbour solicitation without extension headers exactly when its target is the guarded address |
| U32.RuleTextInjective | src/sleep-proxy/scope_guard.cpp:62-71 | Different addresses have different rule texts |
| Text.SplitLoop | src/include/container_utils.h:57-72 | The loop computes the parts |
| Text.JoinLoop | src/include/container_utils.h:28-39 | The loop computes the parts with separators between them |
| Text.JoinOfSplit | src/include/container_utils.h:57-72 | Joining the parts gives the input without its last element exactly when that is the delimiter |
| Text.SplitOfJoinIff | src/include/container_utils.h:57-72 | Splitting a join gives the parts back if and only if none contains the delimiter and the last is not empty |
| Commands.CommandIsJoined | src/sleep-proxy/scope_guard.cpp:109-154 | Every functor's text is its argument list with single spaces |
| Commands.CommandTokenises | src/sleep-proxy/scope_guard.cpp:98-154 | `take_action` recovers exactly the intended arguments, for an address guard if and only if the interface name is not empty and has no space |
| Commands.CommandsDifferInAction | src/sleep-proxy/scope_guard.cpp:98-154 | The texts of a guard's `add` and `del` tokenise to argument lists that differ in exactly the action |
| Execution.CommandsDo | src/sleep-proxy/scope_guard.cpp:98-154 | Read as iptables and ip read them, a guard's `add` text does to chains and addresses exactly what adding the guard does and its `del` text what deleting it does: program, action, hook, options and target |
| Execution.Ipv4CommandsDo | src/sleep-proxy/scope_guard.cpp:98-139 | The same for all IPv4 guards, whatever the C library does with IPv6 text |
| Execution.OptionsJudge | src/sleep-proxy/scope_guard.cpp:116-131 | The verdict of a rule on a TCP or UDP packet is that of the match options and target it was read from |
| Commands.ArgumentsInjective | src/sleep-proxy/scope_guard.cpp:109-154 | Equal arguments only for equal guards and actions, so a `del` names no other guard's rule |
| Commands.Ipv4ArgumentsInjective | src/sleep-proxy/scope_guard.cpp:109-139 | The same for all IPv4 guards, whatever the C library does with IPv6 text |
| Numbers.DigitsNeverWrap | src/include/int_utils.h:50-67 | For unsigned types a digit string of any length converts exactly or is out of range |
| Numbers.SignedDigitsNeverWrap | src/include/int_utils.h:43-67 | The same for signed types, with or without a minus sign |
| Numbers.OtherTextIsRefused | src/sleep-proxy/int_utils.cpp:45-65 | No text, any other character, and for unsigned types a minus sign are refused |
| Numbers.UnsignedRoundTrip | src/include/int_utils.h:57-67 | Printing and converting gives the number back, or out of range above the maximum |
| Numbers.AcceptedIsReadWholeIff | src/sleep-proxy/int_utils.cpp:45-65 | Every accepted string is read up to its first character that is not a digit, which is all of it if and only if it is a string of digits |
| Numbers.LettersAreIgnored | src/sleep-proxy/int_utils.cpp:45-65 | Digits with hexadecimal letters behind them are read as the digits, and letters alone as 0 or refused, depending on the C library |
| IpText.AddressRoundTrip | src/sleep-proxy/ip_address.cpp:88-108 | For every readable address and every prefix length, printing and parsing gives both back or the right exception |
| IpText.Ipv4RoundTrip | src/sleep-proxy/ip_address.cpp:48-108 | For every IPv4 address and every length 0..32 the round trip is exact |
| IpText.BareAddress | src/sleep-proxy/ip_address.cpp:37-46 | An address without a slash gets prefix length 24, or 64, or 128 for "::1" |
| IpText.ZoneIsIgnored | src/sleep-proxy/ip_address.cpp:100-101 | A zone behind a percent sign changes nothing |
| IpText.OtherTextIsRefused | src/sleep-proxy/ip_address.cpp:85-97 | No text, a character outside the set and a second slash are refused |
| ConfigFile.ReadArgs | src/sleep-proxy/args.cpp:41-89 | Reading a block gives its declarative meaning and stops right behind the next host line or at the end |
| ConfigFile.EntryLists | src/sleep-proxy/args.cpp:63-86 | The addresses and ports of a block are the values of its lines with that name, in order, and the two defaults each when there is none |
| ConfigFile.EntryScalars | src/sleep-proxy/args.cpp:42-77 | Interface, mac, name, ping tries and wake method are the value of the last line with that name, or their default when there is none |
| ConfigFile.ReadFile | src/sleep-proxy/args.cpp:91-101 | Reading a file gives every block's entry in order, or the first exception |
| ConfigFile.AbsorbCollects | src/sleep-proxy/args.cpp:61-77 | One more pair gives the declarative reading: scalars take the last value, addresses and ports accumulate in order |
| ConfigFile.BlockPerHostLine | src/sleep-proxy/args.cpp:95-99 | There is one block per line beginning with "host" |
| ConfigFile.HostLineIff | src/sleep-proxy/args.cpp:95-95 | A host line is one whose first four characters are "host" |
| ConfigFile.BlockExtent | src/sleep-proxy/args.cpp:50-50 | A block reaches from behind its host line to the next host line |
| ConfigFile.ValidFileReads | src/sleep-proxy/args.cpp:91-101 | If all blocks are valid there is one entry per host line, and entry n depends on block n only |

## Left out

- Endings by `std::terminate`: a destructor that throws because a `del` failed, an error in the Wake-on-LAN watcher's inner capture, `ping_ips` throwing outside the `try` block.
- Liveness: no claim that a signal, a watcher or `pcap_loop` ever ends anything. Timing and sleeps.
- `pthread_cancel` unwinding; a cancelled capture thread counts as broken. Async-signal safety of the handler's mutex; the handler runs when the mutex is free.
- The order in which the guards of `wait_and_listen` are stopped is arbitrary and may overlap, and an element of a guard vector may be released in any order; the real order is one of these.
- The parts of a run that are values elsewhere are free in the state machine: which client address a captured packet has, what pings, occupancy checks and commands answer.
- libpcap, BPF compilation, sockets, `ioctl`, `posix_spawn`; how libpcap reads a filter is `Filter.ReadFilter` and `Filter.Accepts`, for the one form of filter that is generated. IP fragments are not modelled.
- The loop of `ping_and_wait` and `get_bindable_ip`; the result is a free outcome.
- IPv6 text (`inet_pton`, `inet_ntop`) and whether `strtoull` sets EINVAL without digits are the parameter `Library`; the mac text is not modelled.
- Other bases than ten, and saving and restoring `errno`.
- Validation in the `Args` constructor is the parameter `validate` of `ConfigFile.ReadFile`; reading bytes into lines is left to the stream.
- Rules for protocols other than TCP and UDP match no TCP or UDP packet; what they do to ICMP packets is not part of the verdict, except for the `u32` match.
- ConfigFile.ReadArgs: the stream is a sequence of lines and a position.
- Other processes editing chains or addresses, and side effects of `ip addr` on secondary addresses.
- Duplicate_address_watcher's own `ip neigh` output parsing, logging, help text, option handling, and the single-shot programs.
