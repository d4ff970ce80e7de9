# belle-sip, verified

A Dafny model of the protocol engines inside belle-sip, a SIP stack in C, with proofs of what they promise.

- **DNS packets** (`DnsWalk`, `DnsRead`, `DnsCompress`, `DnsCompressSound`, `DnsCompressLoops`, `DnsDict`, `DnsSections`, `DnsText`,
  `DnsRecords`, `DnsPush`, `DnsPacket`, `DnsBuilder`, `DnsParse`, `DnsLimits`, `DnsRoundTrip`, `DnsRuns`, `DnsFailures`,
  `DnsRepeats`, `DnsCompressExact`, `DnsWire`): names with suffix
  compression, the record writer and reader, the dictionary of names, the memo of section bounds.  The class `Packet` does in place what
  the C code does to its buffer; the theorems of `DnsRuns` are about whole runs of pushes,
  taken and refused; `DnsFailures` and `DnsRepeats` have the runs on which names read wrongly, and say exactly which names are to blame.
  `DnsCompressExact` says which names get shorter, and `DnsWire` what is on the wire, octet for octet, and when a push succeeds.
- **DNS iteration** (`DnsPermutor`, `DnsBox`, `DnsShuffle`, `DnsSelect`, `DnsGrep`, `DnsOrder`, `DnsOrderLaws`, `DnsHints`, with `Bits`): the generator of query ids, the
  16-bit shuffle, iteration by repeated selection over records (in packet order, shuffled, and by content) and over name servers.
- **The resolver** (`DnsResolver`, `DnsResolverOwned`, `DnsResolverSafe`, `DnsResolverRuns`, `DnsResolverEnds`, `DnsReferrals`,
  `DnsMethods`, `DnsAnswers`, `DnsNameservers`, `DnsExec`): the stack machine
  `dns_res_exec`.  Hosts, cache and network are an environment that may answer anything.  Packets are known by their identity, so that
  who owns and who frees them is part of the model.
- **Transactions** (`Transactions`, `TransactionRuns`, `TransactionTraces`, `Machines`, `InvitePair`): the four SIP transaction machines, and an INVITE client and server over a
  network that loses, repeats and reorders.
- **The event loop and lists** (`MainLoop`, `Lists`): the list of sources on linked nodes, and timers that catch up.
- **Framing** (`Framing`, `Chunks`): cutting a stream into messages, with Content-Length bodies (section 18.3 of RFC 3261) and chunked bodies
  (section 3.6.1 of RFC 2616), for every segmentation.  Header parsing is a pair of functions.
- **MD5** (`Md5`): the streaming state equals a one-shot hash.
- **Companions** (`Multipart`, `SrvJoin`, `OctetText`): the multipart body producer, the join of SRV, A and AAAA queries, octets as text.

Most modules hold a specification (functions over sequences and datatypes), the code in place (methods and classes whose contracts equate
the new state with the specification), and lemmas about the specification.  `Bytes` holds what the wire formats share,
`Wrappers` the type of a value that may be absent.

## Findings

Where the code does something else than its comments, its names or the standard promise.  Each is a lemma with a concrete input, or an exact
condition for all inputs.

| finding | source | member |
|---|---|---|
| The suffix search compares a stale label after a failed match, so a name can be compressed into another name: after a.b.c.c, a.c reads c.c. Exactly the names with a repeated label have that effect. | src/dns.c:1609-1631 | `DnsRepeats.HarmlessExactly` |
| For the same reason a name that the dictionary has can be written again: it gets shorter exactly where its first label, met first, begins all of the rest. | src/dns.c:1609-1631 | `DnsCompressExact.ReplacedExactly`, `DnsCompressExact.StaleLabelLengthens` |
| A record refused with DNS_EORDER or DNS_ESECTION leaves the name of its data in the dictionary, exactly under the condition given. | src/dns.c:1204-1284 | `DnsLimits.RefusedSound` |
| After that, a record that is taken can read back as DNS_EILLEGAL. | src/dns.c:1204-1284 | `DnsFailures.RefusedMisleads` |
| Iteration under `dns_rr_i_order` need not stop unless the filter names a type. | src/dns.c:2190-2200 | `DnsOrder.StopsForOneType` |
| Under that order a filter for TXT gives only the last record of an owner. | src/dns.c:3258-3260 | `DnsOrder.EarlierTextsLost` |
| Priorities of name servers are compared by a difference that overflows: two servers 2^31 or more apart come in the wrong order or not at all. | src/dns.c:5237-5244 | `DnsHints.TwoInOrder`, `DnsHints.AllInOrder` |
| A seventh INVITE retransmission can go out in the turn that ends the transaction, exactly when six went before and the loop stalled until 127 T1. | src/ict.c:137-184 | `MainLoop.Retransmissions` |
| A multipart body whose last part is empty is never sent to its end. | src/bodyhandler.c:372-426 | `Multipart.NeverEnds` |
| Driving the resolver on after its answer was fetched meets a failing assertion. | src/dns.c:7201-7202 | `DnsResolverRuns.FetchOnce` |
| With recursion on, referrals that always lead on keep the resolver going for ever, exactly when a name server can be asked at all. | src/dns.c:7042-7054 | `DnsReferrals.EndsUnlessEndless` |
| Without recursion, a frame that looks up an alias or a name server goes on with the search list of the query when its answer is of no use. | src/dns.c:6861-6875 | `DnsAnswers.LookupGoesAstray` |
| The order of name servers depends on offsets that were never set. | src/dns.c:6645-6669 | `DnsNameservers.Unparsed` |
| A REGISTER transaction that times out is not ended. | src/transaction.c:144-160 | `TransactionRuns.CallerStory` |

## Model

| member | source | states |
|---|---|---|
| `DnsRead.ExpandLabel` | src/dns.c:1385-1431 | reads one label and the offset behind it as `LExpand` does: a pointer is followed up to 127 times in a row, an empty label stands for the end and for every error |
| `DnsRead.ExpandStep` | src/dns.c:1385-1431 | for names whose pointers descend, reading one label splits the name at that label; the rest is the name at the offset returned |
| `DnsRead.SkipName` | src/dns.c:1643-1678 | the offset behind a name, zero octet or first pointer included |
| `DnsRead.ExpandName` | src/dns.c:1683-1759 | when the pointers of the name descend, the buffer holds the anchored text of the name, cut off at its end, and the result is the full length; 0 when the name is malformed |
| `DnsRead.PointerLimit` | src/dns.c:1385-1431 | a chain of n pointers in a row is followed to the name at its end if and only if n is at most 127 |
| `DnsWalk.WalkExtends` | src/dns.c:1683-1759 | a well-ended name reads the same in every packet that extends the one it was read in |
| `DnsCompressLoops.CompressName` | src/dns.c:1558-1640 | on the packet's own buffer: writes exactly the octets of the specification `Compressed` behind the end, bounded by the room, and nothing else; the result is the size needed |
| `DnsCompressSound.SearchSound` | src/dns.c:1606-1631 | a hit of the suffix search targets a name with as many labels as the suffix, equal up to case in all but, possibly, the first label |
| `DnsCompressSound.DistinctTail` | src/dns.c:1606-1631 | the first label agrees too when the labels of the name pointed into are distinct |
| `DnsCompressSound.CompressedEnds` | src/dns.c:1558-1640 | whatever the labels, a name written into a sound packet is well-ended: every pointer in it goes to a lower offset, which is what makes reading it end |
| `DnsCompressSound.CompressedReads` | src/dns.c:1558-1640 | section 4.1.4 of RFC 1035: a name without NUL, written into a packet whose dictionary holds names of distinct labels without NUL, reads back label by label up to case, with at most one pointer more in a row than the names before |
| `DnsCompressExact.CaseEqIs` | src/dns.c:1620-1623 | labels without NUL compare as equal exactly when they have the same octets but for the case of A to Z |
| `DnsCompressExact.KnownIsShort` | src/dns.c:1606-1631 | whatever else the dictionary holds: if the place where the first label of a suffix comes first has all of the suffix and lies below 0x4000, the name takes no more octets than the labels before the suffix and two; if the suffix is the whole name, it becomes the two octets 0xC0 + t / 256, t % 256 for that place t |
| `DnsCompressExact.PresentIsShort` | src/dns.c:1606-1631 | so it does if the dictionary has the suffix below 0x4000 wherever it has its first label, and has it at all |
| `DnsCompressExact.ReplacedExactly` | src/dns.c:1606-1631 | exact, octet for octet, when no name in the dictionary repeats a label: the first suffix that is known in that sense is replaced by a pointer to that place |
| `DnsCompressExact.KeptExactly` | src/dns.c:1606-1631 | and if none is known the name is written in full |
| `DnsCompressExact.StaleLabelLengthens` | src/dns.c:1609-1631 | with a.b and a.c in the dictionary a.c becomes its label a and a pointer to c, although all of it is there |
| `DnsRepeats.HarmlessExactly` | src/dns.c:1558-1640 | exact, for every name without NUL that fits: pushed between two other questions, the first of them with distinct labels, it never keeps the second from being read back if and only if no label occurs in it twice, up to case |
| `DnsRepeats.RepeatMisleads` | src/dns.c:1609-1631 | for every name with a repeated label there is a name with distinct labels to push before it and one to push behind it, which then becomes a pointer into the name and reads as a suffix of it, although its own first label is not in the name at all |
| `DnsRepeats.RepeatedLabelsMislead` | src/dns.c:1609-1631 | two questions can be enough: a.b.c.c pushed to an empty packet and then a.c, whose owner name then reads c.c., since the label to compare is not read again after a failed match |
| `DnsText.ReadsBackText` | src/dns.c:1683-1759 | labels that read back print as the text that was pushed, anchored, up to case |
| `DnsDict.DictAdd` | src/dns.c:1144-1173 | the new name replaces the entry it points to, takes the first free slot, or is dropped |
| `DnsDict.PushKeepsSound` | src/dns.c:1762-1779 | after a name is written and recorded the dictionary is sound for the longer packet |
| `DnsDict.GrowKeepsName` | src/dns.c:1683-1759 | octets behind a packet, and changed header counts, mean nothing to the names in it |
| `DnsDict.RollbackKeepsSound` | src/dns.c:1762-1779 | when a push fails after its owner name was recorded, the dictionary is still sound for the packet cut back to its old end |
| `DnsSections.QuestionEnd` | src/dns.c:996-1013 | the end of the question section, for any octets |
| `DnsSections.RecordLength` | src/dns.c:1896-1923 | the size of the record at an offset, for any octets |
| `DnsSections.StudySection` | src/dns.c:1339-1351 | the bounds of one section, stepping over as many records as counted |
| `DnsSections.StudyPacket` | src/dns.c:1353-1373 | the memo of all four sections |
| `DnsSections.RecordSection` | src/dns.c:1931-1959 | the section of a record by memo, or by recounting when there is none |
| `DnsSections.MemoAgreesWithRecount` | src/dns.c:1931-1959 | for every record boundary of every packet, well-formed or not: memo after a study, recount, and the section that the index of the record has by the counts, are the same |
| `DnsRecords.ParseRecord` | src/dns.c:1837-1893 | `dns_rr_parse` for any octets, errors included |
| `DnsRecords.SkipsRecord` | src/dns.c:1926-1928 | stepping over a record leads to the next one |
| `DnsPush.PushRecordSound` | src/dns.c:1176-1284 | a pushed record stands in full behind the end, and every name of the packet stays well-ended |
| `DnsPacket.MovedIsFresh` | src/dns.c:1217-1271 | the memo that a push moves on is the memo of a fresh study of the new packet |
| `DnsPacket.PushKeepsLaid` | src/dns.c:1176-1284 | a push that succeeds adds one record, leaves the octets before it alone, counts one record in its section, and its memo equals a fresh study |
| `DnsWire.ChunksAreStrings` | src/dns.c:3215-3255 | the data of TXT and SPF records: a text of n octets becomes n + ceil(n / 255), each string of 255 octets but the last, each behind its length |
| `DnsWire.PushExactly` | src/dns.c:1176-1284 | for every packet: DNS_ENOBUFS exactly if owner, fixed octets and data as section 4.1.3 of RFC 1035 lays them out do not fit, then DNS_ESECTION exactly if the section is none of the four, then DNS_EORDER exactly if a later section has records; else those octets stand behind the packet, the count of the section is one more, and nothing before has changed |
| `DnsWire.DictionaryAfter` | src/dns.c:1144-1173 | an owner that ends in a pointer behind labels of its own takes the slot of the name pointed to; any other takes the first free slot, and if there is none the dictionary stays as it is |
| `DnsWire.DataDictionaryAfter` | src/dns.c:1144-1173 | then the name in the data does so, exactly in records of types NS, CNAME, PTR and MX |
| `DnsWire.SecondTime` | src/dns.c:1558-1640 | the owner of a packet's first question, pushed again in any mix of cases, is written as the two octets 0xC0, 12 |
| `DnsWire.RunNamesDistinct` | src/dns.c:1558-1640 | after any run of pushes the names of the dictionary repeat no label, which is what `DnsCompressExact.ReplacedExactly` asks for |
| `DnsBuilder.Packet.constructor` | src/dns.c:980-993 | `dns_p_init`: an empty packet |
| `DnsBuilder.Packet.PutName` | src/dns.c:1558-1640 | a compressed name at the end of the packet, if there is room |
| `DnsBuilder.Packet.PushOwner` | src/dns.c:1762-1779 | `dns_d_push`: writes and records the name, or changes nothing |
| `DnsBuilder.Packet.PushHost` | src/dns.c:2622-2645 | NS, CNAME and PTR data: length, and a name that is recorded; or nothing |
| `DnsBuilder.Packet.PushMx` | src/dns.c:2552-2578 | MX data: length, preference, and a name that is recorded; or nothing |
| `DnsBuilder.Packet.PushSrv` | src/dns.c:2880-2927 | SRV data: length, priority, weight, port, and a name that is written but not recorded; or nothing |
| `DnsBuilder.Packet.PushFlat` | src/dns.c:2398-2415 | A and AAAA data and data of unknown types: octets behind their length; or nothing |
| `DnsBuilder.Packet.PushText` | src/dns.c:3215-3255 | TXT data: character strings of at most 255 octets behind their total length; or nothing |
| `DnsBuilder.Packet.PushRdata` | src/dns.c:3349-3367 | the data pusher that the type picks |
| `DnsBuilder.Packet.Push` | src/dns.c:1176-1284 | `dns_p_push` in place: the result and the whole new state (octets, dictionary, memo) are those of `DnsPacket.Push`, on success and on each error |
| `DnsParse.ParseHost` | src/dns.c:2609-2619 | a host name in the data, anchored, or an error when it does not fit |
| `DnsParse.ParseText` | src/dns.c:3185-3212 | the character strings of a TXT record put together, or an error when they do not fit or are cut short |
| `DnsRoundTrip.RecordReads` | src/dns.c:1176-1284 | one record: owner name, fixed fields and data stand as they were given, up to the case of names |
| `DnsRoundTrip.EntryGrow` | src/dns.c:1176-1284 | and they still do in every packet that grows from it |
| `DnsRuns.HeadParses` | src/dns.c:1837-1893 | type, class and TTL modulo 2^31 are parsed back |
| `DnsRuns.RefusedKeeps` | src/dns.c:1176-1284 | a push that fails leaves octets, counts and memo as they were, and every earlier record standing |
| `DnsRuns.RefusedDict` | src/dns.c:1176-1284 | what a failed push can leave in the dictionary is its owner name at most |
| `DnsRuns.TakenKeeps` | src/dns.c:1176-1284 | a push that succeeds keeps every earlier record standing, in its section |
| `DnsLimits.RefusedWhen` | src/dns.c:1204-1284 | a record is refused exactly when it fits and its section does not exist (DNS_ESECTION) or a later one has records (DNS_EORDER), by the counts before the call |
| `DnsLimits.RefusedSound` | src/dns.c:1204-1284 | a refused record leaves the dictionary sound exactly when it is a question, has no name in data of type NS, CNAME, PTR or MX, or there is no place for that name (no free slot, and no entry that its pointer goes to); with two free slots before the call, exactly when it is a question or has no such name |
| `DnsLimits.InlineOfWritten` | src/dns.c:1144-1173 | a name just written counts for the dictionary as pointing to the name its tail was replaced by, if labels are left before it, and else to none |
| `DnsFailures.RefusedMisleads` | src/dns.c:1204-1284 | three pushes to an empty packet, the second one refused with DNS_EORDER: the third is taken, and parsing its NS data gives DNS_EILLEGAL, as the name was compressed against an entry that the refused record left |
| `DnsRuns.EntryParses` | src/dns.c:2381-2578 | A, AAAA, NS, CNAME, PTR, MX, SRV, TXT and raw data are parsed back, and the owner name; or the exact error when the caller's buffer is too small or, for SRV, fewer than six octets are free behind the packet |
| `DnsRuns.RunRoundTrip` | src/dns.c:1837-1893 | after any run of pushes from `dns_p_init`, taken or refused, every record that was taken is parsed back: head, owner name and data, names up to case and anchored: section 4.1.3 of RFC 1035 there and back, with non-interference |
| `DnsRuns.RunsAreGood` | src/dns.c:1176-1284 | both, over any run of pushes, taken or not, from `dns_p_init` |
| `DnsRuns.RunSections` | src/dns.c:1931-1959 | after any such run every record is found in the section it was pushed to, and a fresh study says the same |
| `DnsPermutor.PowOf` | src/dns.c:460-467 | the number of doublings from 1 to at least n |
| `DnsPermutor.Inverse` | src/dns.c:508-543 | for any round function, encryption and decryption are inverse permutations of [0, 2^(2 shift)) |
| `DnsPermutor.FewRejected` | src/dns.c:546-554 | the rejection loop makes at most 2^(2 shift) - length + 1 tries |
| `DnsPermutor.FullCycle` | src/dns.c:546-554 | any `length` calls in a row give each number from low to high exactly once, also where the counter wraps |
| `DnsPermutor.NetworkIsRange` | src/dns.c:469-491 | the network that `dns_k_permutor_init` sets up meets what the full cycle needs |
| `DnsPermutor.Permutor.constructor` | src/dns.c:469-491 | shift, limit and length of the generator for a range of up to 2^31 numbers |
| `DnsPermutor.Permutor.Encrypt` | src/dns.c:508-524 | the rounds, in two-element buffers, compute the network's encryption |
| `DnsPermutor.Permutor.Decrypt` | src/dns.c:527-543 | and its decryption |
| `DnsPermutor.Permutor.Step` | src/dns.c:546-554 | the next number taken and the next counter, with 32-bit wrap-around; the number is in range |
| `DnsPermutor.SevenRounds` | src/dns.c:508-524 | for the eight rounds that the generator is set up with, encryption is seven rounds: each time the right half becomes the left one, and the left one mixed with the round function of the right one becomes the right one |
| `DnsBox.BoxInverse` | src/dns.c:576-603 | the 256-entry S-box is a bijection |
| `DnsShuffle.Shuffle16` | src/dns.c:569-617 | the four rounds compute the specification `Shuffle` |
| `DnsShuffle.FourTurns` | src/dns.c:604-616 | the four rounds written out: octets of the seed from the lowest on, each through the S-box with the low octet, which is then mixed into the high one |
| `DnsShuffle.ShuffleInjective` | src/dns.c:569-617 | for a fixed seed no two 16-bit numbers are shuffled to the same |
| `DnsSelect.VisitsAll` | src/dns.c:2226-2261 | under any ranking of the candidates, ties allowed, repeated selection rises strictly, gives exactly one candidate of each rank, the one a scan of that rank alone would choose, and then stops |
| `DnsSelect.ResultsAre` | src/dns.c:2226-2261 | the results one by one, each computed from the one before, are that list and then the end |
| `DnsSelect.ResultsRise` | src/dns.c:2130-2182 | of any two results the later one compares as greater than the earlier one |
| `DnsSelect.ChosenIs` | src/dns.c:2112-2124 | of candidates of one rank that compare as 0 the first in the packet is chosen; of those that compare as less both ways, the last |
| `DnsSelect.NeverStops` | src/dns.c:2130-2182 | three candidates that each come before the next and the last before the first are given in turn for ever |
| `DnsGrep.StartMissesNothing` | src/dns.c:2084-2096 | starting at the first section asked for misses no record that matches |
| `DnsGrep.Start` | src/dns.c:2078-2127 | the least record that matches, or the end |
| `DnsGrep.SkipTo` | src/dns.c:2130-2182 | the least one above the current record, or the end |
| `DnsGrep.GrepVisits` | src/dns.c:2226-2261 | for every packet, filter and ranking: results rise strictly and stop; a record comes if and only if it matches and is the one chosen of its rank, and of every rank that matches one comes |
| `DnsGrep.GrepVisitsEach` | src/dns.c:2226-2261 | without ties a record comes, exactly once, if and only if it matches |
| `DnsGrep.GrepVisitsOnly` | src/dns.c:2226-2261 | whatever comes is a record boundary of the packet that matches |
| `DnsGrep.PacketVisits` | src/dns.c:2185-2187 | so it is under `dns_rr_i_packet` |
| `DnsGrep.ShuffleVisits` | src/dns.c:2203-2213 | and under `dns_rr_i_shuffle`, by section and shuffled offset, for every packet of at most 65535 octets and every seed |
| `DnsGrep.PacketInOrder` | src/dns.c:2185-2187 | in packet order a later result lies behind an earlier one |
| `DnsGrep.ShuffleInOrder` | src/dns.c:2203-2213 | in shuffled order a later result is in a later section, or in the same one with a larger shuffled offset |
| `DnsGrep.Iterator.constructor` | src/dns.c:2216-2223 | `dns_rr_i_init`: nothing was given yet |
| `DnsGrep.Iterator.Grep` | src/dns.c:2226-2261 | under any comparison: the next `lim` results or as many as there are, parsed, with their sections; in any split into calls together those of repeated selection |
| `DnsOrder.SameFrom` | src/dns.c:1997-1998 | the comparison of names is 0 exactly for names that are equal up to case |
| `DnsOrder.OrderByRank` | src/dns.c:1973-2014 | of records of one type `dns_rr_i_order` compares ranks (section, class, name, data; what does not expand or parse first); equal ranks compare as 0 if name and data are legible and of a type whose data is compared, and as less, both ways, if not |
| `DnsOrder.OrderVisits` | src/dns.c:2190-2200 | under `dns_rr_i_order` and a filter that names a type, for every packet: results rise strictly and stop, and of all matching records of one rank exactly one comes, the first in the packet if they are legible, else the last |
| `DnsOrderLaws.CaseSign` | src/dns.c:1997-1998 | the comparison of two names is negative exactly if at the first octet in which they differ, letters in lower case, the first name has the smaller one, and positive exactly if the second has |
| `DnsOrderLaws.AddressOrder` | src/dns.c:2437-2444 | of two A records of one section, class and owner the one whose four octets make the smaller number comes first, both ways |
| `DnsOrderLaws.LongAddressOrder` | src/dns.c:2484-2494 | of two AAAA records the one with the smaller octet where the addresses differ first |
| `DnsOrderLaws.HostOrder` | src/dns.c:2648-2681 | of two NS, CNAME or PTR records the one with the earlier name in its data |
| `DnsOrderLaws.MxOrder` | src/dns.c:2581-2588 | of two MX records the one with the smaller 16-bit preference, and of one preference the one with the earlier exchange |
| `DnsOrderLaws.SrvOrder` | src/dns.c:2930-2947 | of two SRV records the one with the smaller priority, then weight, then port, then the earlier target |
| `DnsOrderLaws.SoaOrder` | src/dns.c:2782-2817 | of two SOA records the one with the earlier primary server, then mailbox, then the larger serial number and times |
| `DnsOrderLaws.KeyOrder` | src/dns.c:3129-3143 | of two SSHFP records the one with the smaller algorithm, then type, then for SHA-1 the one with the smaller octet where the digests differ first |
| `DnsOrderLaws.MxInOrder` | src/dns.c:7571-7573 | under a filter for MX, as `dns_ai` sets it up: of any two results of one section, class and owner the later one has no smaller preference, and for the same one a later exchange |
| `DnsOrderLaws.SrvInOrder` | src/dns.c:7571-7573 | under a filter for SRV the later one has no smaller priority, and so on down to the target |
| `DnsOrder.EarlierTextsLost` | src/dns.c:3258-3260 | of two TXT or SPF records of one section, class and owner the earlier never comes |
| `DnsOrder.OrderGoesRound` | src/dns.c:2190-2200 | a packet of three records (b. A, b. NS, a. A), in any section, on which a filter for all types gives the three in turn for ever |
| `DnsOrder.StopsForOneType` | src/dns.c:2190-2200 | exact: iteration under `dns_rr_i_order` stops on every packet if and only if the filter names a type, for filters by section, type and class |
| `DnsHints.DifferenceSign` | src/dns.c:5237-5244 | the difference of unsigned priorities, taken as an int, has the right sign both ways exactly when it lies in [-2^31, 2^31) |
| `DnsHints.HintsVisitAll` | src/dns.c:5237-5325 | when any two priorities differ by less than 2^31: every server of the zone comes once, in non-decreasing priority, for any seed, then nothing |
| `DnsHints.HintsInOrder` | src/dns.c:5237-5244 | of any two results the later one has the larger priority, or the same and a larger shuffled index |
| `DnsHints.TwoInOrder` | src/dns.c:5237-5325 | exact for two servers: both come once, in the order of their priorities, and then nothing, if and only if the priorities differ by less than 2^31 |
| `DnsHints.AllInOrder` | src/dns.c:5237-5325 | exact for any number of servers of which no two priorities differ by exactly 2^31: the first results are all of them in the order of their priorities, and then nothing comes, if and only if any two differ by less than 2^31, for any seed |
| `DnsHints.FarApart` | src/dns.c:5265-5284 | if two priorities differ by more than 2^31 the results are not that, whatever else there is |
| `DnsHints.LargerComesFirst` | src/dns.c:5237-5244 | with priorities 1 and 0x80000002 the server of the larger priority comes first |
| `DnsHints.Iterator.Grep` | src/dns.c:5304-5325 | for any priorities: the next `lim` results of repeated selection, or as many as there are |
| `DnsHints.Servers.Insert` | src/dns.c:5188-5215 | up to sixteen servers are kept; the seventeenth takes the place of the first |
| `DnsExec.Machine.Turn` | src/dns.c:6679-7232 | one pass through the switch, on the stack in place: the new state is that of the specification, the invariant is kept, each assertion of the code holds, and each `free` is of an allocated packet |
| `DnsExec.Machine.Exec` | src/dns.c:6679-7232 | from any state in which no referral can be followed any more (recursion off, or no name server to be asked) the loop comes to an end, in the state the specification reaches |
| `DnsExec.Machine.Reset` | src/dns.c:6403-6409 | frees what the frame held and clears it |
| `DnsExec.Machine.FetchAnswer` | src/dns.c:7313-7326 | hands the answer out once the query is done |
| `DnsMethods.NextMethod` | src/dns.c:6734-6751 | for every lookup order and place in it: the first letter from there on, before any NUL, that is b, B, f, F, or c or C with a cache, gives the state entered, and the place behind it is kept; DNS_R_SERVFAIL exactly if there is none |
| `DnsMethods.MethodsInOrder` | src/dns.c:6734-6751 | over any run from a submitted query, by a log of the states that each frame entered from DNS_R_SWITCH: they are the methods of the lookup order in their order, none left out, and DNS_R_SERVFAIL comes only behind all of them |
| `DnsMethods.NamesInOrder` | src/dns.c:6851-6875 | over any run: whenever the query itself is at DNS_R_SEARCH, the names taken since DNS_R_BIND are the search list from its first name on, and it goes on to the next method exactly when there are no more |
| `DnsMethods.RoundsMade` | src/dns.c:6892-6906 | over any run: a frame gives its name servers up only when they came to an end as often as `options.attempts` says, and before that starts over |
| `DnsAnswers.HostsInOrder` | src/dns.c:6752-6805 | the names of the search list are looked up in the hosts file in their order from the first on; the answer is the entry of the first one that is there, and only if none is the next method is tried |
| `DnsAnswers.GivenReturns` | src/dns.c:7086-7207 | an answer with the records asked for, or that says with authority that there are none, from whichever of hosts, cache, servers and frames above: it is what is returned two turns later and then fetched, or in a frame above the query's own what the frame below finds when it goes on as it was |
| `DnsAnswers.ReferralFollowed` | src/dns.c:7042-7051 | with recursion, name servers instead of records: the answer becomes the list of servers to be asked, and the list before is freed |
| `DnsAnswers.AliasFollowed` | src/dns.c:7061-7078 | another name for the one asked for: it is looked up in a new frame above, if there is one of the eight left, while this one waits with its answer |
| `DnsAnswers.ServerLookedUp` | src/dns.c:6907-6947 | a server without addresses is looked up in a new frame above; if that finds some, there is one server less without, and the iteration over the servers starts over |
| `DnsAnswers.CacheAsked` | src/dns.c:6806-6850 | what the cache does not have is submitted, checked for and fetched |
| `DnsAnswers.LookupGoesAstray` | src/dns.c:6861-6875 | without recursion, in a frame above the query's own: an answer of no use replaces what the frame was to look up by the next name of the search list |
| `DnsResolverSafe.ShapeKept` | src/dns.c:6679-7232 | every turn keeps the shape of the stack and changes no frame but the top one and the one above it |
| `DnsResolverOwned.OwnedKept` | src/dns.c:6679-7232 | every turn keeps each pointer of the stack allocated and the only one to its packet |
| `DnsResolverRuns.StackDiscipline` | src/dns.c:6256-6298 | after a submit, over any run: depth below 8, every frame below the top waits in RESOLV1_NS, CNAME1_A or SMART1_A, the assertions hold |
| `DnsResolverRuns.WaitsUnchanged` | src/dns.c:6902-6949 | a frame does not change while there is one above it; it resumes as it was, with an answer above it |
| `DnsResolverRuns.ReturnsAnswered` | src/dns.c:7198-7207 | a return without an error means an answer in frame 0, allocated and pointed to by nothing else |
| `DnsResolverRuns.FetchOnce` | src/dns.c:7313-7326 | a fetch gives an answer exactly when the query is done, and after it the assertion of DNS_R_DONE would fail |
| `DnsResolverEnds.TurnLowers` | src/dns.c:6679-7232 | a turn that follows no referral and does not return lowers what the top frame has still to try |
| `DnsResolverEnds.RunEnds` | src/dns.c:6679-7232 | in a run without referrals only finitely many turns do not return, whatever happens outside |
| `DnsReferrals.EndsUnlessEndless` | src/dns.c:6679-7232 | exact, for every configuration: all runs of a submitted query, with new packets each turn, have finitely many turns that do not return, if and only if recursion is off, or the lookup order does not come to asking name servers, or there is nothing to ask for (no name of the search list, and no answer of the cache to be completed) |
| `DnsReferrals.ReferralsGoOn` | src/dns.c:7042-7054 | otherwise there is a run from the submitted query on, with new packets each turn, in which no turn ever returns |
| `DnsReferrals.BoundedEnds` | src/dns.c:6679-7232 | runs end from every state in which no referral can be followed any more |
| `DnsNameservers.VisitsEnd` | src/dns.c:6627-6676 | the order of name servers of an answer reads offsets that were never set; whatever it finds there, an iteration over servers whose names parse gives each at most once |
| `DnsNameservers.OnlyRises` | src/dns.c:6639-6676 | exact, for two such servers and whatever is found: one comes after the other if and only if the other has better glue, or the same and a lower section or shuffled offset, and, where neither has glue, what is found lies before the end |
| `DnsNameservers.Unparsed` | src/dns.c:6645-6665 | of two servers whose names do not parse each can come after the other, depending on what is found |
| `Transactions.ClientRunKeeps` | src/ict.c:26-184 | INVITE client, over any run: the rank of the state never falls, each timer slot is set only in its states, messages are only added, and nothing changes after termination |
| `Transactions.ServerRunKeeps` | src/ist.c:25-180 | INVITE server: the same |
| `Transactions.CallerRunKeeps` | src/nict.c:26-145 | non-INVITE client: the same; `timer_K` is empty when a final response comes, so the fatal error is out of reach |
| `Transactions.CalleeRunKeeps` | src/nist.c:25-95 | non-INVITE server: the same, but for the stored response after termination |
| `TransactionRuns.ClientStory` | src/ict.c:26-184 | over any run from the start: the user hears provisional responses and then 2xx responses or one of 300 or above; an ACK is sent only for a reported response of 300 or above and no INVITE after it; timers B, D and M hold 64 T1, timer A holds T1 doubled with every INVITE after the first; one INVITE on a reliable transport |
| `TransactionRuns.ServerStory` | src/ist.c:25-180 | at most one final response is sent, then only repeated; timers H and L hold 64 T1, I holds T4, G holds T1 doubled up to T2, and only on an unreliable transport; an ACK reaches the user only after a 2xx |
| `TransactionRuns.CallerStory` | src/nict.c:26-145 | as long as the transport does not fail: the user hears at most one provisional and then at most one final response; timers F and K hold 64 T1 and T4, E holds T1 doubled up to T2, or T2; without a final response timer F ends every transaction but a REGISTER, which it leaves as it is and which ends only with a final response |
| `TransactionRuns.CalleeStory` | src/nist.c:25-95 | at most one final response is sent, then only repeated; a request that comes again is answered by what was sent last; timer J holds 64 T1, or 0 on a reliable transport |
| `TransactionTraces.ClientTrace` | src/ict.c:26-184 | exact, over any run, as a function of the events alone: the user is told every response from 100 on up to the first final one, that one, and behind a 2xx the later ones until timer M; sent are the INVITE, one more with each timer A until there is an outcome, and an ACK for a first final response of 300 or above and for each that follows until timer D; and it is terminated exactly if timer B came before any response, or M or D behind the final one |
| `TransactionTraces.CallerTrace` | src/nict.c:26-145 | exact, over any run: the user is told the first response if it is provisional, and the first final one; the request goes out once, and again with each timer E until then; and it is terminated exactly by timer F, but for a REGISTER, or by the final response and on an unreliable transport timer K behind it |
| `TransactionTraces.CalleeTrace` | src/nist.c:25-95 | exact, over any run: sent is every response of the user up to the first final one, the last of them again for every request that comes again, and the final one for each until timer J, which is what ends it |
| `TransactionTraces.ServerTrace` | src/ist.c:25-180 | exact, over any run: 100, every response up to the first final one, the last of them again for every INVITE that comes again; a refusal again for each INVITE and on an unreliable transport with each timer G until an ACK or timer H; ACKs reach the user exactly between a 2xx and timer L; and it is terminated exactly by timer L, by timer H, or by the ACK and on an unreliable transport timer I behind it |
| `Machines.Ict.OnResponse` | src/ict.c:97-135 | in place, what the client machine does with a response |
| `Machines.Ict.SendRequest` | src/ict.c:169-184 | sends the INVITE and sets timers A and B |
| `Machines.Ict.OnTimerA` | src/ict.c:137-154 | sends again and doubles the period, on unreliable transport |
| `Machines.Ist.SendNewResponse` | src/ist.c:115-148 | what the server machine does with a response of the user |
| `Machines.Ist.ProcessAck` | src/ist.c:88-113 | what it does with an ACK |
| `Machines.Ist.OnRequestRetransmission` | src/ist.c:150-180 | what it does with an INVITE that comes again |
| `Machines.Nict.OnResponse` | src/nict.c:46-68 | what the non-INVITE client does with a response |
| `Machines.Nict.SetCompleted` | src/nict.c:31-44 | timer K is set only where it is empty |
| `Machines.Nist.SendNewResponse` | src/nist.c:55-82 | what the non-INVITE server does with a response of the user |
| `InvitePair.Agreement` | src/ist.c:88-160 | client Completed implies the server reached Completed and never Accepted, client Accepted the reverse; server Confirmed implies the client built the ACK; the user never sees both a 2xx and another final response; in every state reachable over a network that loses, repeats and reorders |
| `InvitePair.CallRefused` | src/ist.c:88-160 | the moves of the pair do bring a call to its end: one that rings, is refused with 486 and acknowledged reaches a state with both sides terminated, the user told 180 and 486 |
| `MainLoop.Loop.AddSource` | src/belle_sip_loop.c:280-296 | the source goes behind the others; `nsources` is the length of the list |
| `MainLoop.Loop.RemoveSource` | src/belle_sip_loop.c:250-260 | exactly that source leaves the list, and one in no list changes nothing; `nsources` is the length of the list |
| `MainLoop.Source.Turn` | src/belle_sip_loop.c:412-465 | a timer is served when its deadline has passed, and set again from that deadline |
| `MainLoop.TimerADeadlines` | src/ict.c:137-154 | however late it is served, the k-th deadline of timer A is start + (2^k - 1) T1 |
| `MainLoop.Retransmissions` | src/ict.c:137-184 | from the start of the transaction, at whatever times the loop comes round: timer B is served in the first turn late for it; at most six INVITE retransmissions go out before that turn, and a seventh goes out in it if and only if six went before and the turn comes at start + 127 T1 or later |
| `MainLoop.SeventhHappens` | src/ict.c:137-184 | and it does, when six turns come in time and the next one at start + 127 T1 |
| `MainLoop.BackoffIs` | src/nict.c:102-127 | periods of timers E and G are min(2^k T1, T2) |
| `MainLoop.ProceedingDeadlines` | src/nict.c:102-127 | timer E in Proceeding, however late each service comes: after k retransmissions in Trying and j in Proceeding it is due j times T2 after the deadline of the backoff |
| `MainLoop.BackoffServed` | src/ist.c:54-65 | their deadlines do not drift |
| `Lists.Concat` | src/belle_sip_utils.c:275-315 | on linked nodes, both directions: the second list behind the first |
| `Lists.Prepend` | src/belle_sip_utils.c:290-297 | a new node in front |
| `Lists.RemoveLink` | src/belle_sip_utils.c:393-407 | exactly that node leaves |
| `Lists.InsertSorted` | src/belle_sip_utils.c:464-489 | on linked nodes, both directions: one node more, before the first that it does not exceed; the data are the old ones with the new one inserted; a list sorted under a total preorder stays sorted |
| `Lists.InsertedSorted` | src/belle_sip_utils.c:464-489 | for any total preorder, order is kept and exactly one element added |
| `Framing.InputStream.Rewind` | src/channel.c:208-221 | what is unread moves to the front of the buffer |
| `Framing.InputStream.FeedBody` | src/channel.c:301-308 | octets go to the body and leave the buffer |
| `Framing.InputStream.AcquireBodySimple` | src/channel.c:348-376 | as much of the body as is there; the message is delivered when it is complete |
| `Framing.InputStream.ParseStream` | src/channel.c:458-540 | the loop computes the specification `Drain` on the buffer in place |
| `Framing.InputStream.ReceiveData` | src/channel.c:547-593 | a read, and the parsing of what is then there |
| `Framing.Segmentation` | src/channel.c:458-540 | from any state between reads, in any split: exactly the messages complete in what was received are delivered, header and body |
| `Framing.WholeStream` | src/channel.c:458-540 | a stream of well-formed messages is delivered whole, in order, in any split |
| `Framing.RoomToRead` | src/channel.c:547-593 | between reads there is room for more, so no read of zero octets ends the stream by mistake |
| `Framing.BadHeaderDropped` | src/channel.c:498-533 | a header that cannot be parsed is dropped, nothing is delivered, and what follows it is looked at next |
| `Framing.FullIsTried` | src/channel.c:465-493 | when no more than the NUL fits in the buffer a turn does not wait for an end of line |
| `Chunks.Segmentation` | src/channel.c:378-431 | a chunked body in any split: it ends exactly when all but at most the last end of line has come, and is then the data of its chunks in order |
| `Chunks.WholeMessage` | src/channel.c:458-540 | header and chunked body together, cut anywhere: the header is recognised when all of it came, and the message is complete, with that header and the data of its chunks, when all came but at most the last end of line |
| `Chunks.LastLineEnds` | src/channel.c:390-411 | the last size line and the empty line end the body, and what follows them is left for the next message |
| `Chunks.AcquireGood` | src/channel.c:378-431 | one call: the body ends with every chunk in it, or stands at the right place with too little to go on |
| `Chunks.ChunkedStream.AcquireChunkedBody` | src/channel.c:378-431 | the loop computes the specification `Acquire` on the input stream in place |
| `Chunks.ChunkedStream.ReadLine` | src/channel.c:390-415 | a size line: a chunk, the end, an error, or too little |
| `Chunks.ChunkedStream.ReadData` | src/channel.c:416-430 | as much of the chunk as is there |
| `Md5.FoldOn` | src/md5.c:322-357 | hashing on needs only the words and the unfinished block |
| `Md5.PiecesDoNotMatter` | src/md5.c:322-357 | however a message is cut, the state is that of the message |
| `Md5.PaddedIsWhole` | src/md5.c:359-381 | section 3.1 and 3.2 of RFC 1321: the padded message is a whole number of blocks, at least nine octets longer |
| `Md5.PaddedOctets` | src/md5.c:359-381 | the octet behind the message is 0x80, zeros follow up to the last eight, and of these the j-th is 8 n / 256^j modulo 256 |
| `Md5.HashIsBlocks` | src/md5.c:322-381 | the digest is that of the words that the blocks of 64 octets of the padded message lead to, one after another, from the initial words on |
| `Md5.InitialWords` | src/md5.c:312-320 | the initial words, as the sixteen octets that section 3.3 of RFC 1321 lists |
| `Md5.DigestOctets` | src/md5.c:377-381 | octet 4 k + j of the digest is octet j of word k, the lowest first |
| `Md5.CarriesOver` | src/md5.c:333-336 | the two count words hold the bits modulo 2^64: the carry is taken exactly where the lower word wraps |
| `Md5.Hasher.constructor` | src/md5.c:312-320 | the state of the empty message |
| `Md5.Hasher.Append` | src/md5.c:322-357 | in place, the state becomes that of the longer message |
| `Md5.Hasher.Finish` | src/md5.c:359-381 | the digest is the one-shot hash of all that was appended, for any block function |
| `Multipart.PartHandler.SendChunk` | src/bodyhandler.c:104-162 | the next octets of a part, and whether they are the last |
| `Multipart.MultipartHandler.AddPart` | src/bodyhandler.c:452-480 | the expected size stays the sum over separators, headers, contents and terminator |
| `Multipart.MultipartHandler.SendChunk` | src/bodyhandler.c:372-426 | one chunk into the buffer, in place, as the specification `Send` says; the sizes stay right while it continues |
| `Multipart.ChunkIsNext` | src/bodyhandler.c:372-426 | each chunk is what comes next in the body, and a stop comes with the last one |
| `Multipart.Conservation` | src/bodyhandler.c:104-426 | for any parts and buffers that are large enough: the chunks put together are the body, its size is the expected size, the stop comes exactly at the end; and that is reached unless the last part is empty, when it never is |
| `SrvJoin.CombinedResolver.CheckFinished` | src/belle_sip_resolver.c:904-930 | the callback is called with all results when every record is done, and not otherwise |
| `SrvJoin.CombinedResolver.OnResults` | src/belle_sip_resolver.c:932-938 | an answer is recorded, and the join checked when its record is done |
| `SrvJoin.CalledOnce` | src/belle_sip_resolver.c:904-1048 | in whatever order the queries are answered, the callback is called once, with the last answer; what it is given has for each record, in SRV order and right behind those before, the answer of its IPv6 query and then that of its IPv4 query, or that of its only one, and nothing else |
| `SrvJoin.AiListAppend` | src/belle_sip_resolver.c:287-296 | on linked nodes: the second list behind the first |
| `OctetText.BitsReader.Read` | src/belle_sip_utils.c:797-826 | the number that the next bits are, zeros beyond the end; an error for too many bits or past the end |
| `OctetText.WordWindow` | src/belle_sip_utils.c:802-822 | the shifted and masked word is that window of the bit stream |
| `OctetText.OctetsToText` | src/belle_sip_utils.c:828-842 | min(size - 1, ceil(8 len / 6)) symbols, each for its six bits, and a NUL |
| `OctetText.TextIs` | src/belle_sip_utils.c:828-842 | symbol i of the text stands among the sixty-four where bits 6 i to 6 i + 5 say, the highest bit of an octet first |
| `OctetText.TextDetermines` | src/belle_sip_utils.c:828-842 | octets of one length with the same text are the same, when the buffer has room for all of it |

## Left out

- DnsRuns.RunRoundTrip: for names whose labels are of 1 to 63 octets and without NUL, and distinct up to case but for SRV targets (`DnsRepeats.HarmlessExactly` shows that this is exact), and while no dictionary name needs more than 125 pointers in a row (a record can add two, where the code follows 127); records with names in their data are not pushed out of order, as the dictionary then holds a name that is gone (`DnsFailures.RefusedMisleads`).
- DnsRuns.RefusedKeeps: the hypotheses of `DnsRuns.RunRoundTrip`.
- DnsRuns.RefusedDict: the hypotheses of `DnsRuns.RunRoundTrip`.
- DnsRuns.TakenKeeps: the hypotheses of `DnsRuns.RunRoundTrip`.
- DnsRuns.RunSections: the hypotheses of `DnsRuns.RunRoundTrip`.
- DnsRuns.RunsAreGood: the same hypotheses; packets are at most 65535 octets, though `dns_p_grow` can reach 65536.
- DnsRead.ExpandName: only for names whose pointers descend; on others the count of pointers is reset at each label (src/dns.c:1724) and the code may not return.
- DnsCompressLoops.CompressName: not for empty names, labels over 63 octets, and dictionaries with names that cannot be read.
- DnsBuilder.Packet.PutName: not for empty names, labels over 63 octets, and dictionaries with entries that stand for no name that ends.
- DnsBuilder.Packet.PushOwner: as `DnsBuilder.Packet.PutName`.
- DnsBuilder.Packet.PushHost: as `DnsBuilder.Packet.PutName`.
- DnsBuilder.Packet.PushMx: as `DnsBuilder.Packet.PutName`.
- DnsBuilder.Packet.PushSrv: as `DnsBuilder.Packet.PutName`.
- DnsBuilder.Packet.PushRdata: as `DnsBuilder.Packet.PutName`.
- DnsParse.ParseHost: only for names whose pointers descend, as `DnsRead.ExpandName`.
- DnsBuilder.Packet.Push: empty names are excluded, as the code then returns an error value that it never set; labels over 63 octets are excluded, as their length octet would be read as something else.
- DnsRuns.EntryParses: SRV data are parsed back only with six free octets behind the packet, as `dns_srv_parse` compares with the free room (src/dns.c:2853).
- DnsOrder.OrderVisits: names in records are taken to have descending pointers, as in `DnsRead.ExpandName`; the buffers of `dns_rr_cmp` for parsed data are not initialised, so their sizes are any (`room`), but the same for both records and at every comparison.
- DnsOrder.StopsForOneType: filters by name or data are left out of the equivalence; a name can keep a filter for all types from going round, but need not.
- DnsHints.HintsVisitAll: for priorities any two of which differ by less than 2^31; that is exact (`DnsHints.TwoInOrder`, `DnsHints.AllInOrder`).
- DnsHints.AllInOrder: where two of three or more priorities differ by exactly 2^31, the order of the servers and the priorities between decide, and nothing is said.
- DnsRepeats.HarmlessExactly: for names of up to 16356 octets on the wire, so that all of the name can be pointed to, and packets with room for three such names.
- DnsCompressExact.ReplacedExactly: for dictionaries of names without a repeated label, as every run leaves them (`DnsWire.RunNamesDistinct`); with others `DnsCompressExact.KnownIsShort` holds and `DnsRepeats.RepeatMisleads` shows what else can happen.
- DnsOrderLaws.MxInOrder: for records whose names and data parse, as `DnsOrder.OrderVisits`.
- DnsAnswers.HostsInOrder: as long as no lookup fails for another reason, such as memory.
- DnsResolverEnds.RunEnds: counts what the iterators still have to give instead of the packets' octets (`DnsNameservers.VisitsEnd` is why they end), and takes it that glue that was copied makes one more name server glued.
- DnsResolverEnds.TurnLowers: the same.
- DnsExec.Machine.Exec: not where referrals can lead on for ever, as the loop then need not end (`DnsReferrals.EndsUnlessEndless`).
- DnsNameservers.VisitsEnd: the glue of a server is given instead of searched for in the packet.
- SrvJoin.CalledOnce: each query is taken to call back exactly once; results are sequences in the classes, and linking the lists in place is in `SrvJoin.AiListAppend` alone.
- Framing.Segmentation: for messages without filler octets between them and headers that fit the buffer; the end of the stream and keep-alive octets are not modelled.
- Chunks.WholeMessage: for the last message of a stream, as a last end of line that comes late disturbs what follows it.
- Md5.Hasher.Append: sizes for which the sums in `int` do not overflow; the block function is any function, the rounds of MD5 are not modelled.
- InvitePair.Agreement: one server transaction for the branch; dialogs, proxies and transport failures are not modelled.
- MainLoop.Source.Turn: callbacks act on their own timer only; file descriptors, polling, and sources that are stopped or serve once are not modelled.
- MainLoop.Loop.AddSource: a source that is already the only one of a list looks like one in no list, which the code does not notice either.
- Machines.Ist.SendNewResponse: the channel is taken to be there.
- Transactions.CallerRunKeeps: a channel that fails, which ends a client transaction, is no event of the machines.
- TransactionRuns.CallerStory: the same; with such failures a REGISTER can end without a response.
- Framing.InputStream.ReceiveData: read errors, and the end of the stream, are not modelled.
- Framing.InputStream.ParseStream: chunked bodies are in `Chunks`, not in the same loop; keep-alive octets are not modelled.
- Multipart.MultipartHandler.AddPart: only before sending begins.
- Multipart.MultipartHandler.SendChunk: only for buffers that have room for the terminator, as the code subtracts its size.
- SrvJoin.CombinedResolver.OnResults: the two queries of one record are one answer.
- Callbacks of the transaction user do not end transactions themselves.
- Pushing OPT, SOA and SSHFP data, and parsing them other than to compare (`DnsOrder`); SPF macros beyond text; `dns_p_merge`, `dns_d_trim`, and growing a packet while pushing.
- The contents of packets inside the resolver, its sockets, hosts file, cache and search names: all answers come from the environment.
- `srv_select_by_weight`, which drops records once a group of equal priority exists.
- The outgoing side of channels, dialogs, refreshers, authentication, URI and header parsing and printing, reference counts.
