# Verified model of the InHive core and its share-link converter

This project models, in Dafny 4.11, the parts of the repository whose correctness is hardest to see from
one function alone: the concurrent life cycle of the core, adding and removing servers on a running box,
the share-link printers and parsers that stored nodes pass through on every ping and connect, the
subscription pipeline, and some stateful bookkeeping. `dafny verify dfyconfig.toml` checks all of it.

| file | what it models |
|---|---|
| `Lifecycle.dfy` | Start, Stop and abortStart: one lock held for a whole call, a separately guarded cancel handle, any number of threads |
| `SideInstance.dfy` | the bring-up race of a side-instance: caller, worker, deadline, unbuffered hand-over |
| `HotAdd.dfy` | AddOutbound, RemoveOutbound and the lookup through groups on a live box |
| `GoStrings.dfy`, `Base64.dfy`, `Urls.dfy` | Go's strings, strconv, encoding/base64 and net/url as far as links need them |
| `Keys.dfy` | the tolerant base64 decoder and the normalisers of WireGuard, Shadowsocks 2022 and Reality keys |
| `ShareUrl.dfy` | ParseUrl: a link with its parameters as a map, base64 userinfo opened, raw `+` kept in key parameters |
| `ObfGrammar.dfy` | the checks of AmneziaWG's H and I parameters against grammars of their own |
| `Awg.dfy`, `AwgLink.dfy`, `AwgIni.dfy` | WireGuard and AmneziaWG endpoints: printed as links, read back, and read from wg-quick files |
| `AwgConf.dfy`, `AwgConfEndpoint.dfy` | wg-quick files as sections of typed lines, what they say, and files for endpoints |
| `Shadowsocks.dfy` | buildSSURI, ShadowsocksSingbox and the legacy whole-base64 form |
| `Splitter.dfy`, `Containers.dfy`, `Chains.dfy` | text to records, JSON containers to entries, ` -> ` chains to nodes linked by detours |
| `VmessMerge.dfy` | transport and TLS blocks to the flat map of a vmess link, in every map order |
| `CoreLog.dfy`, `LogLevel.dfy`, `Watcher.dfy`, `Salvage.dfy` | the rotating log, the persisted log level, the mode watcher, the in-place salvage filter |

Code that changes state is modelled by methods and classes (`Lifecycle.InhiveInstance`, `HotAdd.LiveBox`,
`CoreLog.CoreLogWriter`, `LogLevel.CoreSettings`, the loops over lines, links, tags and cycles). Each is
proved against a function of its inputs or of the old state, and the properties are proved about that
function. The two concurrent protocols are transition systems with one step per lock, handle or channel
action, and their theorems are about runs of any length in any interleaving.

Strings are byte strings. What the repository does not show is a parameter: the netip parser (`parse`),
the per-protocol link parsers (`parse` in `Chains`), JSON and its transcoders (`Codec`), the known prefixes
of the splitter, the order in which Go walks a map (`keys`, `order`).

## Where the code does not do what it says or what one would expect

* An AmneziaWG endpoint is told from a plain one by the sum of eight int64 values. The sum can wrap to zero
  (`AwgLink.SumsCanWrap`), and a valid AmneziaWG endpoint then comes
  back as WireGuard (`AwgLink.AwgEndpointCanComeBackPlain`); `AwgLink.RoundTripExactly` gives the exact condition.
* AWGSingbox looks for the keepalive under `pk_keepalive` too, but ParseUrl puts a blank for every `_` of a
  parameter name, so that no link has a parameter of that name (`AwgLink.PkKeepaliveIsNeverFound`) and a
  keepalive given there is lost (`AwgLink.PkKeepaliveIsLost`).
* An empty or unprintable Shadowsocks password does not survive buildSSURI and ShadowsocksSingbox
  (`Shadowsocks.RoundTripExactly`, `Shadowsocks.EmptyPasswordIsLost`); the legacy form carries both.
* RemoveOutbound of a tag that something else dials through takes it out all the same and leaves a dangling
  detour. It reports failure when a server dials through a server (`HotAdd.FailedRemoveLeavesADanglingDetour`),
  and success when the tag or whoever dials through it is an endpoint
  (`HotAdd.SuccessfulRemoveLeavesADanglingDetour`). `HotAdd.RemoveKeepsResolvable` says exactly when a remove
  is safe, `HotAdd.RemoveReportsSuccess` exactly when it reports success.
* The comment in `log_file.go` promises at most two caps on disk; the line that overflows the file goes out
  with it. Two caps and one longest line are the exact bound: `CoreLog.LogKeepsASuffix` proves it and
  `CoreLog.TwoCapsAreExceeded` reaches it for every cap. `CoreLog.TwoCapsExactly` says in which runs two caps hold.
* A Stop that looks for the cancel handle before the start has stored it waits for the whole start
  (`Lifecycle.StopCanMissTheStart`).
* The settings server listens before Setup has read the stored row, so that the stored and the persisted
  level can differ (`LogLevel.BeforeSetupTheyMayDiffer`); `LogLevel.LevelsAgreeExactly` says when they agree.

## Model

| member | source | states |
|---|---|---|
| Lifecycle.RunsAreSafe | v2/hcore/start.go:149-293 | in every interleaving of any number of Start and Stop calls: a free lock means STOPPED or STARTED, STARTED exactly when a service is live, at most one live service, a stored cancel handle only during a start, a live service with a cancelled context only while the Stop that fired it has not closed it yet |
| Lifecycle.StepKeepsInv | v2/hcore/start.go:149-293 | the inductive invariant behind it is kept by every step of every thread |
| Lifecycle.QueuedStopHasAborted | v2/hcore/stop.go:31-46 | a Stop that queued for the lock after a start published its handle has cancelled that start's context |
| Lifecycle.StopCanMissTheStart | v2/hcore/stop.go:31-46 | a run in which a Stop read no handle and waits behind a start that nobody cancels |
| Lifecycle.SomeCallCanMove | v2/hcore/start.go:149-293 | no deadlock: while some call is unfinished, some call can take a step |
| Lifecycle.StepsComeToAnEnd | v2/hcore/stop.go:20-63 | every step brings its call nearer to its end, so a call ends after boundedly many steps of its own |
| Lifecycle.StartStepsAlone | v2/hcore/start.go:149-293 | without interference the steps of a start have the effect of the whole call, failures leaving the fields as they were |
| Lifecycle.StopStepsAlone | v2/hcore/stop.go:31-62 | the same for a Stop, whatever CloseService answers |
| Lifecycle.InhiveInstance.SetStartCancel | v2/hcore/static_data.go:96-103 | publishes a fresh handle and cancels one left behind, nothing else |
| Lifecycle.InhiveInstance.ClearStartCancel | v2/hcore/static_data.go:108-112 | forgets the handle without firing it |
| Lifecycle.InhiveInstance.AbortStart | v2/hcore/static_data.go:118-126 | fires the stored handle if there is one, and changes nothing else |
| Lifecycle.InhiveInstance.ErrorWrapper | v2/hcore/custom.go:9-25 | the failure path: service dropped and closed, status STOPPED |
| Lifecycle.InhiveInstance.StartService | v2/hcore/start.go:149-293 | the locked section as a whole has the effect the steps have |
| Lifecycle.InhiveInstance.Stop | v2/hcore/stop.go:20-63 | a Stop outside any start has the effect the steps have |
| SideInstance.RunsAreSafe | v2/hcore/independent_instance.go:174-219 | in every run one service at most is started, it is closed at most once, and an open one has exactly one owner |
| SideInstance.ExactlyOneOwner | v2/hcore/independent_instance.go:174-219 | when both sides are through, a built instance is either the caller's and open, or the caller has an error and the worker closed it once |
| SideInstance.GivingUpIsFinal | v2/hcore/independent_instance.go:206-219 | a caller that timed out never gets an instance afterwards |
| SideInstance.StepsRunOut | v2/hcore/independent_instance.go:174-219 | once build has returned every step of either side uses up one of boundedly many |
| SideInstance.NeverStuck | v2/hcore/independent_instance.go:174-219 | and there is always such a step until both have ended |
| HotAdd.RunsStayWhole | v2/hcore/commands.go:206-390 | over every run of adds under fresh tags and removes of hot-added mains each call succeeds, and every member and detour stays resolvable |
| HotAdd.EveryBoxExtendsItself | v2/hcore/commands.go:206-390 | such runs may start from any box that is whole |
| HotAdd.AddThenRemoveRestores | v2/hcore/commands.go:206-390 | an add followed by the remove of the same fresh tag restores outbounds, endpoints and the order of memberships |
| HotAdd.AddOfShape | v2/hcore/commands.go:206-324 | what an add creates, retags and joins, for one server, an endpoint, or a main with its helper |
| HotAdd.SystemIsNotAdded | v2/hcore/commands.go:206-324 | a selector, urltest, direct, block or dns outbound in the content changes nothing, wherever it stands |
| HotAdd.FirstServerIsTheMain | v2/hcore/commands.go:206-324 | the first outbound that is none of these is the main and answers to the requested tag |
| HotAdd.SelectionAfterRemove | v2/hcore/commands.go:335-390 | a group keeps its other members in order, and its selection unless that was the removed tag: then the fallback while it is a member, else the first member, else none |
| HotAdd.RemoveKeepsResolvable | v2/hcore/commands.go:335-390 | for every tag, server or endpoint: a remove keeps the box whole if and only if nobody who stays dials through the tag, or an endpoint of that name remains |
| HotAdd.RemoveReportsSuccess | v2/hcore/commands.go:335-390 | a remove reports success if and only if the tag names a server that no other server dials through, or no server but an endpoint |
| HotAdd.FailedRemoveLeavesADanglingDetour | v2/hcore/commands.go:335-390 | a box on which the remove fails after the server is gone |
| HotAdd.SuccessfulRemoveLeavesADanglingDetour | v2/hcore/commands.go:354-390 | boxes on which the remove of an endpoint, or of a server an endpoint dials through, succeeds and leaves a detour dangling |
| HotAdd.SharedHelperStays | v2/hcore/commands.go:366-406 | a helper that something else still uses is never removed with its main |
| HotAdd.ResolvedWithinTheBound | v2/hcore/commands.go:40-63 | groups nested no deeper than eight are resolved to their end |
| HotAdd.LiveBox.OutboundTagReferenced | v2/hcore/commands.go:394-406 | true exactly when something else in the box depends on the tag |
| HotAdd.LiveBox.ResolveRealOutboundTag | v2/hcore/commands.go:40-63 | follows selections from a known tag at most eight times; "" for an unknown one |
| HotAdd.LiveBox.AddOutbound | v2/hcore/commands.go:206-324 | leaves the box and the answer that the add function describes |
| HotAdd.LiveBox.RemoveOutbound | v2/hcore/commands.go:335-390 | leaves the box and the answer that the remove function describes |
| Base64.DecodeEncode | xray2sing/ray2sing/hb64.go:29-59 | decoding undoes encoding in either alphabet (sections 4 and 5 of RFC 4648) |
| Base64.AcceptedChars | xray2sing/ray2sing/hb64.go:29-59 | nothing outside the alphabet and padding is ever accepted |
| Keys.ReadsAllEncodings | xray2sing/ray2sing/hb64.go:29-59 | all four encodings of any byte string, with blanks anywhere and a byte order mark, are read as those bytes |
| Keys.ForeignByteIsRejected | xray2sing/ray2sing/common.go:730-739 | a text with a byte outside both alphabets, such as the ':' of a link, is left alone |
| Keys.WgKeyFromAnyEncoding | xray2sing/ray2sing/awg.go:29-48 | all four encodings of 32 bytes become the standard padded one |
| Keys.WgKeyIsCanonical | xray2sing/ray2sing/awg.go:29-48 | what is accepted is the standard form of exactly 32 bytes, and normalising again changes nothing |
| Keys.NormalizeSS2022Password | xray2sing/ray2sing/shadowsocks.go:94-107 | every ':' segment is fixed on its own, in place |
| Keys.PasswordFromAnyEncodings | xray2sing/ray2sing/shadowsocks.go:94-107 | segments in any of the four encodings all become the standard padded one |
| Keys.RealityKeyFromAnyEncoding | xray2sing/ray2sing/common.go:870-873 | all four encodings become the raw url-safe one |
| Urls.UnescapeEscape | xray2sing/ray2sing/url_schema.go:101-136 | what reading gives back for a text escaped in any mode, in the query style or in the raw style (section 2.1 of RFC 3986) |
| Urls.QueryPairsRoundTrip | xray2sing/ray2sing/singbox_ingest.go:1063-1068 | a printed query is parsed into the pairs it was printed from, in order |
| Urls.ParsePrinted | xray2sing/ray2sing/url_schema.go:35-50 | a printed link is cut up into its scheme, userinfo, host, port, query and name, for names, IPv4 and bracketed IPv6 |
| ShareUrl.ParseUrl | xray2sing/ray2sing/url_schema.go:35-99 | visiting each key of the query once, in any order, the map-filling loops compute the parameters that the specification describes |
| ShareUrl.NoKeyIsDropped | xray2sing/ray2sing/url_schema.go:78-96 | every key of the query is a parameter, under its normal form |
| ShareUrl.OverrideRawQueryParams | xray2sing/ray2sing/url_schema.go:104-136 | key parameters are read again piece by piece in the raw style, the last one winning |
| ShareUrl.QueryMapRoundTrip | xray2sing/ray2sing/url_schema.go:78-96 | a map of canonical keys printed in any order and visited in any order is read back as it was, the raw re-reading included |
| ShareUrl.ParsePrintedLink | xray2sing/ray2sing/url_schema.go:35-99 | the same for a whole printed link with userinfo, host, port, parameters and name |
| ShareUrl.ParseSpelledLink | xray2sing/ray2sing/url_schema.go:35-99 | and for links whose keys are spelt in any way that normalises to the parameter's name |
| ShareUrl.NormalForm | xray2sing/ray2sing/url_schema.go:78-96 | a key means the same in any case, with white space around it, and with '_' or '-' for a blank |
| ShareUrl.RepeatedKeysAreJoined | xray2sing/ray2sing/url_schema.go:78-96 | the values of a repeated key come joined, in order |
| ShareUrl.PlusIsKept | xray2sing/ray2sing/url_schema.go:82-136 | a key parameter that a link carries unescaped keeps every '+', whatever the other parameters are |
| ObfGrammar.MagicHeaderAcceptsItsGrammar | xray2sing/ray2sing/awg.go:56-78 | validateMagicHeader accepts exactly nothing, a decimal uint32, or a range that does not run backwards |
| ObfGrammar.ObfSpecAcceptsItsGrammar | xray2sing/ray2sing/awg.go:90-136 | validateObfSpec accepts exactly the texts whose every tag is one of the eight keys with a legal value |
| ObfGrammar.TagOkIsTagGrammar | xray2sing/ray2sing/awg.go:105-132 | the same for the inside of one tag, split at white space |
| ObfGrammar.ValidateObfSpec | xray2sing/ray2sing/awg.go:90-136 | the scanning loop decides that grammar |
| AwgLink.RoundTripExactly | xray2sing/ray2sing/awg.go:567-792 | a valid single-peer endpoint printed and read back is the same endpoint if and only if its type agrees with the parser's own test and it has allowed addresses, or there are no default routes |
| AwgLink.PrintedLinkIsReadBack | xray2sing/ray2sing/singbox_ingest.go:968-1070 | every field comes back whatever the order of the query, as the kind that the parser's test gives it |
| AwgLink.AnyStyleIsReadBack | xray2sing/ray2sing/awg.go:567-792 | a valid endpoint is read back from a link under any of the names the parser knows, each in any spelling, with the private key as a parameter, as the escaped userinfo or with "@host" leaked behind it; without allowed addresses it routes the defaults |
| AwgLink.EveryStyleIsReadBack | xray2sing/ray2sing/awg.go:626-660 | every valid endpoint has such a link in every choice of names, and the link is read back as it |
| AwgLink.PkKeepaliveIsNeverFound | xray2sing/ray2sing/awg.go:637 | no link has a parameter under that name |
| AwgLink.PkKeepaliveIsLost | xray2sing/ray2sing/awg.go:637 | a link that gives the keepalive there is read as one that gives none |
| AwgLink.TestsAgree | xray2sing/ray2sing/awg.go:728 | while the sum of the numbers stays below 2^64 the parser's test is the printer's |
| AwgLink.SumsCanWrap | xray2sing/ray2sing/awg.go:728 | legal values whose sum wraps to zero |
| AwgLink.AwgEndpointCanComeBackPlain | xray2sing/ray2sing/awg.go:725-789 | a valid AmneziaWG endpoint with such numbers comes back as plain WireGuard |
| AwgLink.SampleEndpoint | xray2sing/ray2sing/singbox_ingest.go:880-899 | valid endpoints of either kind exist for all legal parameters |
| AwgLink.UriFromSingboxEndpoint | xray2sing/ray2sing/singbox_ingest.go:968-1070 | filling the query parameter by parameter gives the specified link, or none |
| AwgLink.ObfuscationReadsBack | xray2sing/ray2sing/awg.go:678-709 | all twenty AmneziaWG parameters come back |
| AwgLink.LinkIsNotBase64 | xray2sing/ray2sing/awg.go:567-572 | the body of a printed link is never taken for base64 |
| AwgLink.BytesReadBack | xray2sing/ray2sing/awg.go:156-173 | a printed list of bytes is parsed back |
| AwgIni.AWGSingboxTxt | xray2sing/ray2sing/awg.go:255-565 | the loop over lines computes the specified endpoint or the first error |
| AwgIni.PeersAreTheBlocks | xray2sing/ray2sing/awg.go:281-432 | the peers are exactly the [Peer] blocks with a key line, in file order, each made of its own block only |
| AwgIni.OnlyTheMeaningMatters | xray2sing/ray2sing/awg.go:284-312 | two files with the same meaningful lines are read the same |
| AwgIni.IgnoredLineAnywhere | xray2sing/ray2sing/awg.go:284-288 | a blank line, a comment or a line without '=' may stand anywhere |
| AwgIni.KeyInAnyCase | xray2sing/ray2sing/awg.go:194-253 | a key of the table may be written in any case and with any blanks before and after it, on any line |
| AwgIni.CommentAfterValue | xray2sing/ray2sing/awg.go:301-307 | a comment after the value of a table key changes nothing, on any line |
| AwgConf.FileIsRead | xray2sing/ray2sing/awg.go:255-565 | a file of any [Interface], [Peer] and other sections, each known key written out by name, is read as its lines say: the last line of a key counts, lists go on from line to line, every [Peer] section with a line is a peer, the default routes go to peers without AllowedIPs, and the first fault is the error |
| AwgConfEndpoint.EndpointIsReadBack | xray2sing/ray2sing/awg.go:255-565 | a file whose lines are true of an endpoint and leave out nothing it has, in any order and with any number of peers, is read as that endpoint |
| AwgConfEndpoint.PrintedFileIsReadBack | xray2sing/ray2sing/awg.go:255-565 | every valid endpoint has a file, and the file is read back as it |
| Shadowsocks.RoundTripExactly | xray2sing/ray2sing/json_ingest.go:1134-1161 | the cipher that the method stands for, password, server, port, plugin and options come back if and only if the password is non-empty, printable and, for a 2022 method, one that the parser leaves alone |
| Shadowsocks.PrintedIsRead | xray2sing/ray2sing/shadowsocks.go:109-204 | what the parser makes of a printed link in every other case |
| Shadowsocks.EmptyPasswordIsLost | xray2sing/ray2sing/shadowsocks.go:124-136 | an empty password comes back as the method's name with method "none" |
| Shadowsocks.LegacyRoundTrip | xray2sing/ray2sing/shadowsocks.go:232-267 | the legacy form in any of the four encodings, the method in any case and with any white space around it, brings back every byte of the password, a 2022 password if and only if the parser leaves it alone |
| Shadowsocks.CiphersExactly | xray2sing/ray2sing/shadowsocks.go:18-86 | which text stands for which cipher, each cipher and alias written out, in any case and with any white space around it |
| Shadowsocks.PluginsExactly | xray2sing/ray2sing/shadowsocks.go:138-170 | which plugin name stands for which plugin, written out |
| Shadowsocks.UnknownCipherIsRefused | xray2sing/ray2sing/shadowsocks.go:109-136 | a link under a method that stands for no cipher gives an error |
| Shadowsocks.UnknownPluginIsRefused | xray2sing/ray2sing/shadowsocks.go:138-204 | a link with a plugin of another name gives an error |
| Shadowsocks.MethodIsNeverOpened | xray2sing/ray2sing/url_schema.go:51-76 | no spelling of a supported method or alias, in any case and with any white space around it, is mistaken for base64 userinfo |
| Shadowsocks.UserinfoIsBlob | xray2sing/ray2sing/json_ingest.go:1144 | the printed userinfo decodes to "method:password" |
| Shadowsocks.PluginReadsBack | xray2sing/ray2sing/shadowsocks.go:144-149 | plugin name and options come back whatever separators and escapes the options hold |
| Shadowsocks.IndexUnescaped | xray2sing/ray2sing/shadowsocks.go:209-225 | the first separator preceded by an even run of backslashes, or -1 when there is none |
| Shadowsocks.FixedPasswordStable | xray2sing/ray2sing/shadowsocks.go:94-107 | a 2022 password is left alone if and only if each segment decodes, or is unpaddable and free of url-safe symbols |
| Splitter.SplitByPrefix | xray2sing/ray2sing/spliter.go:52-80 | slicing between the matches of the pattern gives the specified records |
| Splitter.RecordsCoverTheText | xray2sing/ray2sing/spliter.go:52-80 | the records concatenate to the text from the first known line on, each starts with a known prefix, no later line of one does |
| Splitter.NoStartInMatch | xray2sing/ray2sing/spliter.go:45-53 | non-overlapping matching skips no start of a record |
| Splitter.ExpandDecodedConfig | xray2sing/ray2sing/spliter.go:81-115 | the loops compute the specified records |
| Splitter.LinksComeApart | xray2sing/ray2sing/spliter.go:81-115 | a subscription of links, comments and blank lines, with white space, carriage returns and byte order marks around them, gives exactly its links in order |
| Splitter.EncodedLinksComeApart | xray2sing/ray2sing/spliter.go:93-110 | the same when the whole subscription is base64, in any of the four encodings |
| Containers.ConvertJSONEntries | xray2sing/ray2sing/json_ingest.go:102-114 | the records of a body's entries, in order; a bare array of nodes gives exactly its nodes' records; none when nothing was found |
| Containers.IngestJSON | xray2sing/ray2sing/json_ingest.go:73-91 | the links of a body's entries that are not endpoints, one a line; a bare array of nodes with links gives exactly their links, in order |
| Containers.CollectContainerEntries | xray2sing/ray2sing/json_ingest.go:151-190 | the walk gives the entries that the body gives, item by item |
| Containers.BodyGivesItsEntries | xray2sing/ray2sing/json_ingest.go:151-190 | an array gives its items' entries in order and an object its own; an item that is no wrapper gives exactly itself, not renamed and not an endpoint |
| Containers.EntriesFromContainerObject | xray2sing/ray2sing/json_ingest.go:196-240 | the entries of a wrapper, with the early exit of a named node |
| Containers.RecordOfEntry | xray2sing/ray2sing/json_ingest.go:102-114 | an entry that has a record has exactly one, at its place in the order, and there are no others |
| Containers.LinkIsTheRecord | xray2sing/ray2sing/json_ingest.go:60-114 | both consumers agree: the link of an entry is its record |
| Containers.NodesAreNeverLost | xray2sing/ray2sing/json_ingest.go:265-309 | every entry that is a node has a record, if it has a link or its JSON can be written out again |
| Containers.NamedNodeGivesAtMostOne | xray2sing/ray2sing/json_ingest.go:206-226 | a named wrapper gives at most one entry, one with a link if any outbound has one, none only if no outbound is a node |
| Containers.WrapperGivesAll | xray2sing/ray2sing/json_ingest.go:228-239 | any other wrapper gives each of its values once: outbounds, then servers, then endpoints |
| Chains.GenerateConfigLite | xray2sing/ray2sing/convert.go:249-337 | the nested loops compute the specified outbounds and endpoints |
| Chains.NodesJoinTheirList | xray2sing/ray2sing/convert.go:259-324 | the outbounds are exactly the nodes of links that parse to outbounds or pairs, the endpoints exactly those of links that parse to endpoints, in order |
| Chains.LinesAreChains | xray2sing/ray2sing/convert.go:249-262 | a comment or a line shorter than five bytes gives nothing; any other line gives each of the texts between its " -> " to the parser, in order |
| Chains.EveryLineIsAChain | xray2sing/ray2sing/convert.go:259 | every line is the chain of one list of texts |
| Chains.TagsAreDistinct | xray2sing/ray2sing/convert.go:249-326 | no two emitted nodes share a tag, for any lines and any pattern of failures |
| Chains.EmitsTheWalks | xray2sing/ray2sing/convert.go:253-326 | the emitted nodes are exactly those of the lines' walks: none lost, none twice |
| Chains.DetoursStayInTheLine | xray2sing/ray2sing/convert.go:285-320 | a detour is empty or names the next node of the same line |
| Chains.DetoursFollowTheLine | xray2sing/ray2sing/convert.go:259-324 | following detours among all nodes visits the links that parse, in written order and under their own names with the counter, and ends |
| Chains.StripUndoesSuffix | xray2sing/ray2sing/json_ingest.go:345-360 | stripTagSuffix takes the counter off again, whatever the tag |
| VmessMerge.MergeQueryIntoVmessMap | xray2sing/ray2sing/json_ingest.go:1232-1253 | for a query without clashing keys the result is the one the description fixes, whatever the order of the walk |
| VmessMerge.MergedIsUnique | xray2sing/ray2sing/json_ingest.go:1232-1253 | that description leaves no choice |
| VmessMerge.ClashingKeysDisagree | xray2sing/ray2sing/json_ingest.go:1232-1253 | in general the order does matter |
| VmessMerge.ApplierKeysNeverClash | xray2sing/ray2sing/singbox_ingest.go:263-421 | the appliers' keys never clash |
| VmessMerge.AppliersUseTheirKeys | xray2sing/ray2sing/singbox_ingest.go:263-421 | the keys that transport and TLS blocks can set |
| VmessMerge.BlocksAreMerged | xray2sing/ray2sing/singbox_ingest.go:263-421 | field by field, which value of the transport, of the TLS block or of the map a field of the result has |
| VmessMerge.MergedBlocks | xray2sing/ray2sing/singbox_ingest.go:263-421 | so the map of a vmess link has those fields, for every transport and TLS block in every order |
| CoreLog.LogKeepsASuffix | v2/hcore/log_file.go:55-128 | over every run the size field is the file's length and within the cap, and core.log.1 followed by core.log is a suffix of the accepted lines, within two caps and one line |
| CoreLog.WriteStaysInSync | v2/hcore/log_file.go:110-128 | a write leaves at most two caps on disk if and only if the line finds room: beside the backup while the file keeps growing, by itself when it rotates |
| CoreLog.TwoCapsExactly | v2/hcore/log_file.go:18-20 | for every run and any files found at the start: two caps hold from the opening on if and only if they hold at the opening and every line written finds room |
| CoreLog.TwoCapsAreExceeded | v2/hcore/log_file.go:18-20 | for every cap and every longest line a run reaches two caps and that line exactly, so the bound is tight |
| CoreLog.TwoCapsBoundOnlyEmptyLines | v2/hcore/log_file.go:18-20 | two caps bound all runs over lines up to a given length if and only if that length is zero |
| CoreLog.EarlyLinesAreTheFirst | v2/hcore/log_file.go:92-106 | before the log is open exactly the first 200 lines are kept |
| CoreLog.CoreLogWriter.WriteLocked | v2/hcore/log_file.go:110-128 | appends or rotates as the function of the state says |
| CoreLog.CoreLogWriter.InitCoreLog | v2/hcore/log_file.go:55-88 | opens, rotates an oversized file and flushes the backlog |
| CoreLog.CoreLogWriter.CoreLogAppend | v2/hcore/log_file.go:92-106 | writes when open, else keeps the line while there is room |
| LogLevel.LevelsAgreeExactly | v2/hcore/buildconfighelper.go:145-240 | from a process start on, exactly when the stored and the persisted level agree |
| LogLevel.AgreementLasts | v2/hcore/buildconfighelper.go:145-240 | once they agree they keep agreeing over any requests |
| LogLevel.BeforeSetupTheyMayDiffer | v2/hcore/grpc_server.go:145-172 | a request before Setup has read the row makes them differ |
| LogLevel.VerboseStaysInMemory | v2/hcore/buildconfighelper.go:145-240 | a request for debug or trace alone changes neither; any other stored one writes the merged fields, with the persisted level unless it brings one |
| LogLevel.CoreSettings.ChangeInhiveSettings | v2/hcore/buildconfighelper.go:145-240 | replaces options, level and stored row as the function of the state says |
| LogLevel.CoreSettings.LoadSettings | v2/hcore/grpc_server.go:156-172 | Setup merges the stored row, or nothing, and takes its level for the persisted one |
| Watcher.RunModeWatcher | v2/hcore/urltest_watcher.go:107-173 | the loop with its sliding window speaks exactly when a rule about the whole history says so |
| Watcher.WindowDecides | v2/hcore/urltest_watcher.go:227-266 | the window of at most ten decides that rule |
| Watcher.FullWindowCounts | v2/hcore/urltest_watcher.go:239-266 | with ten verdicts the count alone decides |
| Watcher.EmissionsAreSound | v2/hcore/urltest_watcher.go:107-173 | recommendations come only in mode 1 on an unhealthy history and never within the cool-down |
| Watcher.IsCycleFailed | v2/hcore/urltest_watcher.go:205-225 | when a cycle counts as failed |
| Watcher.AppendBounded | v2/hcore/urltest_watcher.go:227-233 | the last entries of the extended window |
| Watcher.ShouldRecommendModeTwo | v2/hcore/urltest_watcher.go:239-266 | the two clauses of the rule |
| Salvage.SalvageSingOptions | v2/config/config.go:56-105 | succeeds if and only if the sections that are present are lists, some entry is invalid, the cleaned document decodes and something survives; the result is what it decodes to |
| Salvage.FilterInPlace | v2/config/config.go:71-87 | although it overwrites the array it scans, the kept part is exactly the valid entries in order |
| Salvage.FilterKeeps | v2/config/config.go:71-87 | every occurrence of a valid entry is kept and none of an invalid one |
| Salvage.FilterSplits | v2/config/config.go:71-87 | the order is kept |

## Left out

- Panic recovery: it runs after the lock is released and is outside the life-cycle model.
- The engine, its registries, the managers of a live box, JSON, YAML, zlib, goleveldb, netip and the log factory: parameters or contracts taken from the repository's comments.
- Network and platform code, gRPC plumbing, certificates, command-line mains, generated code.
- The per-protocol option tables (getTransportOptions, getTLSOptions, the routing and DNS builders): one-branch claims.
- processSingleConfig and the container formats other than JSON: parsers are parameters of the chain model.
- Non-ASCII case mapping and white space, in strings and in the splitter's pattern.
- Escapes and zones in hosts, the inside of an IPv6 literal, unbracketed hosts with several colons, relative and opaque URLs.
- Two raw query keys that normalise to one: which of them counts depends on the order in which Go walks the map.
- AwgLink.RoundTripExactly: single-peer endpoints, canonical keys, zero or three reserved bytes and int64 numbers at or above their minimum; others are refused, defaulted or clamped by design. The order of the printed query is a parameter rather than sorted.
- AwgLink.MeantAs: an AmneziaWG endpoint's worker count, which its options have no place for.
- The noise options of a plain WireGuard link: the printer never writes them.
- The answer of AWGSingbox without endpoint and without error is the failure NoParameters; its only caller makes an error of it.
- Shadowsocks.OutboundOf: udp-over-tcp and multiplex parameters.
- HotAdd.RunsStayWhole: requests that fail half way, and adds under tags that are already in use.
- CoreLog.LogKeepsASuffix: one directory, file operations that succeed, time stamps and line formatting.
- LogLevel.LevelsAgreeExactly: fields other than the level are a map; omitting zero values on storing is not modelled, nor is the level of the live box.
- Containers.NodesAreNeverLost: that the JSON of a node without a link can be written out again is a premise about the JSON library.
- Chains.GenerateConfigLite: the fields of nodes other than tag and detour.
