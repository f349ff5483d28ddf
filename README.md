# TunnelMonitorKit in Dafny

TunnelMonitorKit lets an iOS/macOS app talk to its packet-tunnel network
extension. Messages travel as `MessageContainer`s: a type tag (the
unqualified name of the message type) plus optional payload bytes. A
`MessageRouter` keeps, for each tag, the handlers registered for it and calls
them in registration order when a container arrives. For development without a
real extension, a mock manager runs the provider in-process. It drives a tunnel
status (`NEVPNStatus`) that every assignment copies to a loop-back
`TMTunnelProviderSessionMock` and reports to a delegate. Its reports and its
calls on the provider are recorded in one trace, in the order they happen. That session delivers
sent messages to its own router only while connected. Tunnel configuration
builds the packet-tunnel settings. Its route lists are comma-separated
`address:mask` strings checked against an IPv4 pattern, and its DNS servers
are the comma-separated pieces of one string. Routes are parsed with either of
two parsers: the one the source has, which reads the mask from the wrong part
of the string (see "## Findings"), and the corrected one. A small logger filters lines by
a minimum severity.

The model has one Dafny module per source unit:

- `Text` holds the string helpers the source gets from Foundation: decimal
  digits, `components(separatedBy:)`, `split(separator:)` and
  `trimmingCharacters(in: .whitespacesAndNewlines)`.
- `VpnStatus` and `LogLevels` hold the two enumerations.
- `BasicLogging` holds the threshold logger, as a class.
- `Container` holds message containers and a byte encoding that stands in for
  JSON.
- `Router` holds the handler table, as a class.
- `ProviderSession` holds the loop-back session, as a class.
- `MockProviderManager` holds the mock manager, as a class.
- `IPv4Route` holds the route pattern and the route parser.
- `NetworkSettings` holds the configuration keys, the settings record and the
  packet-tunnel settings built from it.

The inputs that the model cannot see are parameters:
- handlers and completion closures are ids;
- what a handler replies is a function;
- what the provider reports from its configure and start steps is a
  `Callback` value;
- the bundle path is a string.

## Model

| member | source | states |
|---|---|---|
| VpnStatus.FromRaw | Sources/TunnelMonitorKit/Util/NEVPNStatus+Util.swift:14-23 | exactly the raw values 0–5 name a status, and the status found has that raw value |
| VpnStatus.FromRawOfRawValue | Sources/TunnelMonitorKit/Util/NEVPNStatus+Util.swift:14-23 | the raw value of every status leads back to that status |
| VpnStatus.DescribeRaw | Sources/TunnelMonitorKit/Util/NEVPNStatus+Util.swift:14-23 | the description is "unknown" exactly for raw values outside the six cases, otherwise the case's own name |
| VpnStatus.DescriptionInjective | Sources/TunnelMonitorKit/Util/NEVPNStatus+Util.swift:16-21 | two statuses have the same description only if they are the same status, and no status is described as "unknown" |
| VpnStatus.Count | Sources/TunnelMonitorKit/Util/NEVPNStatus+Util.swift:29-31 | a status occurs at most as often as the list is long, and zero times exactly when it is absent |
| VpnStatus.Without | Sources/TunnelMonitorKit/Util/NEVPNStatus+Util.swift:29-31 | filtering a status out removes exactly its occurrences, keeps only members of the list, and leaves a list without that status unchanged |
| VpnStatus.WithoutAppend | Sources/TunnelMonitorKit/Util/NEVPNStatus+Util.swift:29-31 | filtering keeps order: the filtered concatenation of two lists is the first filtered followed by the second filtered |
| VpnStatus.AllCasesDistinct | Sources/TunnelMonitorKit/Util/NEVPNStatus+Util.swift:29-31 | `allCases` has six entries and no repeats |
| VpnStatus.AllCasesComplete | Sources/TunnelMonitorKit/Util/NEVPNStatus+Util.swift:29-31 | `allCases` lists every status, and exactly once |
| VpnStatus.CountSingle | Sources/TunnelMonitorKit/Util/NEVPNStatus+Util.swift:29-31 | an entry that occurs at only one index is counted once |
| VpnStatus.WithoutMembers | Sources/TunnelMonitorKit/Util/NEVPNStatus+Util.swift:29-31 | a status is in the filtered list exactly when it is in the list and is not the one filtered out |
| VpnStatus.NonSendableCases | Sources/TunnelMonitorKit/Util/NEVPNStatus+Util.swift:29-31 | leaving `connected` out of `allCases` leaves five statuses, which are exactly the statuses other than `connected` |
| LogLevels.RawValuesIncreasing | Sources/TunnelMonitorKit/Logging/TMLogger.swift:27-33 | every level is declared, and raw values grow strictly from debug to critical |
| LogLevels.SeverityIsTotalOrder | Sources/TunnelMonitorKit/Logging/TMLogger.swift:27-33 | the threshold comparison on raw values is reflexive, antisymmetric, transitive and total |
| LogLevels.DescriptionsDistinct | Sources/TunnelMonitorKit/Logging/TMLogger.swift:35-43 | level names are non-empty, and two names (or their first letters) are equal only for the same level |
| BasicLogging.TargetPrefix | Sources/TunnelMonitorKit/Logging/TMOSLogger.swift:16 | the prefix is "TUN" exactly when the bundle path ends in ".appex", and "APP" otherwise |
| BasicLogging.FormatLineInjective | Sources/TunnelMonitorKit/Logging/TMOSLogger.swift:27 | two lines of one logger are equal only if they carry the same level and the same message |
| BasicLogging.BasicLogger.constructor | Sources/TunnelMonitorKit/Logging/TMOSLogger.swift:16-19 | a new logger has the prefix of its bundle, minimum level info and no lines |
| BasicLogging.BasicLogger.SetLogLevel | Sources/TunnelMonitorKit/Logging/TMOSLogger.swift:21-23 | the minimum level becomes the given level |
| BasicLogging.BasicLogger.Log | Sources/TunnelMonitorKit/Logging/TMOSLogger.swift:25-29 | a message at or above the minimum adds exactly one formatted line; a message below it adds nothing |
| Container.MetatypeDistinguishesNames | Sources/TunnelMonitorKit/MessageContainer.swift:52-54 | two message types get the same tag exactly when their unqualified names agree |
| Container.MetatypeIgnoresScope | Sources/TunnelMonitorKit/MessageContainer.swift:52-54 | types of the same name in different scopes get the same tag |
| Container.QualifiedMetatypeUnique | Sources/TunnelMonitorKit/MessageContainer.swift:49-51 | the intended unique tag: with the scope written before the name, two dot-free types get the same tag exactly when they are the same type |
| Container.Make | Sources/TunnelMonitorKit/MessageContainer.swift:29-32 | a container carries its type's tag and exactly the given content |
| Container.EncodeChar | Sources/TunnelMonitorKit/MessageContainer.swift:16-22 | each character of the tag takes three bytes, the first at most 0x10 |
| Container.EncodeCharValue | Sources/TunnelMonitorKit/MessageContainer.swift:16-22 | the three bytes written for a character spell its code point |
| Container.CharValueBytes | Sources/TunnelMonitorKit/MessageContainer.swift:16-22 | three bytes whose value is a scalar value are that value's big-endian bytes |
| Container.Encode | Sources/TunnelMonitorKit/MessageContainer.swift:16-22 | an encoded container is never empty |
| Container.DecodeEncodeTag | Sources/TunnelMonitorKit/MessageContainer.swift:37-43 | decoding an encoded tag gives the tag and leaves the following bytes untouched |
| Container.EncodeDecodeTag | Sources/TunnelMonitorKit/MessageContainer.swift:37-43 | a successfully decoded tag re-encodes to exactly the bytes it was read from |
| Container.DecodeEncode | Sources/TunnelMonitorKit/MessageContainer.swift:37-43 | decoding the encoding of any container gives that container back |
| Container.EncodeDecode | Sources/TunnelMonitorKit/MessageContainer.swift:37-43 | in the stand-in byte format, bytes that decode to a container are exactly that container's encoding, so a container has one encoding there (JSON has many) |
| Container.DecodeParts | Sources/TunnelMonitorKit/MessageContainer.swift:37-43 | accepted data starts with the marker, then an encoded tag, then content bytes that decode to the container's content |
| Container.ContentOfDecode | Sources/TunnelMonitorKit/MessageContainer.swift:37-43 | content bytes that decode are the encoding of what they decode to |
| Container.DecodeContentOfEncode | Sources/TunnelMonitorKit/MessageContainer.swift:37-43 | encoded content, present or absent, decodes back to itself |
| Container.DecodeEmpty | Sources/TunnelMonitorKit/MessageContainer.swift:37-43 | empty data is not a container |
| Container.PayloadSurvivesTransfer | Sources/TunnelMonitorKit/MessageContainer.swift:29-43 | a payload wrapped for a type, encoded and decoded comes back unchanged under that type's tag |
| Router.Lookup | Sources/TunnelMonitorKit/MessageRouter.swift:31 | a tag without an entry has no handlers |
| Router.MessageRouter.constructor | Sources/TunnelMonitorKit/MessageRouter.swift:21-23 | a new router has no entries |
| Router.MessageRouter.AddHandler | Sources/TunnelMonitorKit/MessageRouter.swift:29-33 | the handler is appended after the ones already registered for the type's tag, and every other tag keeps its list |
| Router.MessageRouter.Handlers | Sources/TunnelMonitorKit/MessageRouter.swift:38-41 | gives the list registered for the type's tag, or none if the tag was never registered |
| Router.MessageRouter.RemoveHandlers | Sources/TunnelMonitorKit/MessageRouter.swift:45-48 | the type's tag has no handlers afterwards, and every other tag keeps its list |
| Router.MessageRouter.Handle | Sources/TunnelMonitorKit/MessageRouter.swift:55-61 | every handler of the message's tag is called once, in registration order, with the message's content and the given completion, and the count returned is the number of handlers |
| ProviderSession.DeliveredAreReplies | Sources/TunnelMonitorKit/TMTunnelProviderSession.swift:78-86 | every payload reaching the caller is, unchanged, a reply of one of the handlers called |
| ProviderSession.NothingDeliveredWithoutTarget | Sources/TunnelMonitorKit/TMTunnelProviderSession.swift:78-86 | without a response handler nothing reaches the caller, whatever the handlers reply |
| ProviderSession.OneReplyEach | Sources/TunnelMonitorKit/TMTunnelProviderSession.swift:78-86 | when each handler replies once, the caller receives one reply per handler, in call order |
| ProviderSession.TunnelProviderSessionMock.constructor | Sources/TunnelMonitorKit/TMTunnelProviderSession.swift:63-64 | a new session reports `invalid` (the base class's status) and has a fresh, empty router |
| ProviderSession.TunnelProviderSessionMock.StopTunnel | Sources/TunnelMonitorKit/TMTunnelProviderSession.swift:70-72 | the session reports `disconnected` afterwards |
| ProviderSession.TunnelProviderSessionMock.StartTunnel | Sources/TunnelMonitorKit/TMTunnelProviderSession.swift:74-76 | the session reports `connected` afterwards |
| ProviderSession.TunnelProviderSessionMock.SendProviderMessage | Sources/TunnelMonitorKit/TMTunnelProviderSession.swift:78-86 | nothing is dispatched unless the session is connected and the bytes decode; otherwise each handler of the container's tag is called in order with its content and a completion that forwards to the caller, and the caller receives exactly the replies those calls produce |
| MockProviderManager.StartOutcomes | Sources/TunnelMonitorKit/Mocking/TMTunnelProviderManager.swift:85-106 | start always first sets `connecting`. It ends `connected` exactly when configuring and starting both succeed. It ends `disconnected`, passing through `disconnecting`, exactly when starting reports an error. It stays `connecting` when configuring fails or a completion never comes |
| MockProviderManager.Notifications | Sources/TunnelMonitorKit/Mocking/TMTunnelProviderManager.swift:48-53 | the statuses reported in a trace are no more than its events |
| MockProviderManager.Calls | Sources/TunnelMonitorKit/Mocking/TMTunnelProviderManager.swift:85-112 | the provider calls in a trace are no more than its events |
| MockProviderManager.ProjectionsAppend | Sources/TunnelMonitorKit/Mocking/TMTunnelProviderManager.swift:48-53 | the reports and the calls of a trace followed by another are those of the first followed by those of the second |
| MockProviderManager.ProjectionsPartition | Sources/TunnelMonitorKit/Mocking/TMTunnelProviderManager.swift:48-53 | a trace's reports and its calls together account for all of its events |
| MockProviderManager.StartEventsProjections | Sources/TunnelMonitorKit/Mocking/TMTunnelProviderManager.swift:85-106 | the start trace reports exactly the start transitions when a delegate is set and nothing otherwise, and makes exactly the calls configure and, after a successful configure, start |
| MockProviderManager.StartEventsOrder | Sources/TunnelMonitorKit/Mocking/TMTunnelProviderManager.swift:85-106 | in the start trace `connecting` is reported before configure is called, configure comes before start, a failed configure ends the trace, and everything after the start call is a status report |
| MockProviderManager.UserConfigurationData | Sources/TunnelMonitorKit/Mocking/TMTunnelProviderManager.swift:64-68 | with no user configuration, no data is stored. A configuration whose encoding fails makes init fail. Otherwise its encoding is stored |
| MockProviderManager.MockTunnelProviderManager.constructor | Sources/TunnelMonitorKit/Mocking/TMTunnelProviderManager.swift:43-71 | a new manager has status `invalid`, its session reports that status, it keeps the given settings and configuration data, and it has no delegate and an empty trace |
| MockProviderManager.MockTunnelProviderManager.SetDelegate | Sources/TunnelMonitorKit/Mocking/TMTunnelProviderManager.swift:27 | the delegate becomes the given one, and whether the session mirrors the status is unchanged |
| MockProviderManager.MockTunnelProviderManager.AssignStatus | Sources/TunnelMonitorKit/Mocking/TMTunnelProviderManager.swift:48-53 | every assignment of the status is copied to the session and adds one notification of it to the trace when a delegate is set, and nothing otherwise |
| MockProviderManager.MockTunnelProviderManager.StartTunnel | Sources/TunnelMonitorKit/Mocking/TMTunnelProviderManager.swift:85-106 | the trace grows by exactly `StartEvents`: `connecting` reported, configure called, and only after a successful configure the start call followed by the final statuses. The final status is the last start transition, and the session agrees with it |
| MockProviderManager.MockTunnelProviderManager.FinishStart | Sources/TunnelMonitorKit/Mocking/TMTunnelProviderManager.swift:95-104 | after the start call the status ends `connected`, or `disconnected` by way of `disconnecting` on an error, or stays `connecting` without a callback, each assignment reported in order |
| MockProviderManager.MockTunnelProviderManager.StopTunnel | Sources/TunnelMonitorKit/Mocking/TMTunnelProviderManager.swift:108-112 | the trace grows by one stop call, as initiated by the user, and the status and the session are untouched |
| IPv4Route.ParseRouteAsWritten | Sources/TunnelMonitorKit/Util/NEIPv4Route+Util.swift:22-35 | a route is produced exactly for strings matching the pattern, and both of its fields are the `address` group |
| IPv4Route.AsWrittenMaskIsDestination | Sources/TunnelMonitorKit/Util/NEIPv4Route+Util.swift:28 | as written, "0.0.0.0:255.255.255.255" parses with mask "0.0.0.0" and not "255.255.255.255" |
| IPv4Route.RenderExamples | Sources/TunnelMonitorKit/Util/NEIPv4Route+Util.swift:15 | the addresses 0.0.0.0 and 255.255.255.255 are written as those strings |
| IPv4Route.NumeralExamples | Sources/TunnelMonitorKit/Util/NEIPv4Route+Util.swift:15 | 0 and 255 are written "0" and "255" |
| IPv4Route.ParseRoute | Sources/TunnelMonitorKit/Util/NEIPv4Route+Util.swift:22-35 | a route is produced exactly for strings matching the pattern; its destination is the `address` group and its mask the `subnet` group |
| IPv4Route.RouteOf | Sources/TunnelMonitorKit/Util/NEIPv4Route+Util.swift:22-35 | both parsers accept exactly the route pattern and take the destination from the `address` group; the source's takes the mask from the `address` group too, the corrected one from the `subnet` group |
| IPv4Route.CorrectedMaskIsSubnet | Tests/TunnelMonitorKitTests/UtilTests/NEIPv4RouteTests.swift:15-21 | "0.0.0.0:255.255.255.255" parses to destination "0.0.0.0" and mask "255.255.255.255" |
| IPv4Route.OctetOfDecimal | Sources/TunnelMonitorKit/Util/NEIPv4Route+Util.swift:15 | the decimal numeral of every number from 0 to 255 matches the octet pattern |
| IPv4Route.DecimalOfOctet | Sources/TunnelMonitorKit/Util/NEIPv4Route+Util.swift:15 | every string matching the octet pattern is the decimal numeral, with no leading zero, of a number from 0 to 255 |
| IPv4Route.TwoDigits | Sources/TunnelMonitorKit/Util/NEIPv4Route+Util.swift:15 | two digits with a non-zero first spell a number from 10 to 99 whose numeral they are |
| IPv4Route.RenderHasNoColon | Sources/TunnelMonitorKit/Util/NEIPv4Route+Util.swift:17 | a written address contains no ':' |
| IPv4Route.AddressGrammar | Sources/TunnelMonitorKit/Util/NEIPv4Route+Util.swift:15 | a string matches the address pattern exactly when it is four octets from 0 to 255 written in decimal and joined by dots |
| IPv4Route.AddressOf | Sources/TunnelMonitorKit/Util/NEIPv4Route+Util.swift:15 | every accepted address string is the rendering of an address with octets up to 255 |
| IPv4Route.AddressOfRender | Sources/TunnelMonitorKit/Util/NEIPv4Route+Util.swift:15 | a written valid address matches the pattern and splits back into its four numerals |
| IPv4Route.RouteOfRender | Sources/TunnelMonitorKit/Util/NEIPv4Route+Util.swift:17-35 | two written valid addresses joined by ':' match the route pattern, with the first as the `address` group and the second as the `subnet` group |
| IPv4Route.RouteGrammar | Sources/TunnelMonitorKit/Util/NEIPv4Route+Util.swift:17-35 | a string matches the route pattern exactly when it is two valid addresses joined by ':', and then it parses to those two addresses |
| IPv4Route.RouteChars | Sources/TunnelMonitorKit/Util/NEIPv4Route+Util.swift:17 | a route string holds only digits, dots and ':' |
| IPv4Route.AddressChars | Sources/TunnelMonitorKit/Util/NEIPv4Route+Util.swift:15 | an accepted address holds only digits and dots |
| NetworkSettings.KeyRawValuesDistinct | Sources/TunnelMonitorKit/TunnelConfiguration/PacketTunnelConfiguration.swift:13-19 | the two configuration keys have different raw strings |
| NetworkSettings.WithDefaultOverhead | Sources/TunnelMonitorKit/TunnelConfiguration/PacketTunnelConfiguration.swift:45-60 | the init without an overhead argument stores an overhead of 4 bytes and every other argument unchanged, `subnet` as the tunnel subnet |
| NetworkSettings.Present | Sources/TunnelMonitorKit/TunnelConfiguration/PacketTunnelConfiguration.swift:84 | `compactMap` keeps no more values than it is given, and a route is kept exactly when it was present in the input |
| NetworkSettings.PresentAppend | Sources/TunnelMonitorKit/TunnelConfiguration/PacketTunnelConfiguration.swift:84 | `compactMap` of two lists one after the other is the first's result followed by the second's |
| NetworkSettings.PieceResults | Sources/TunnelMonitorKit/TunnelConfiguration/PacketTunnelConfiguration.swift:83-84 | there is one parse result per piece |
| NetworkSettings.ParsePieces | Sources/TunnelMonitorKit/TunnelConfiguration/PacketTunnelConfiguration.swift:83-84 | there are no more routes than pieces |
| NetworkSettings.ParsedRouteOrigin | Sources/TunnelMonitorKit/TunnelConfiguration/PacketTunnelConfiguration.swift:83-84 | every route produced is what some trimmed piece parses to, with the parser in use (the source's gives the destination as mask) |
| NetworkSettings.ParsedRouteComplete | Sources/TunnelMonitorKit/TunnelConfiguration/PacketTunnelConfiguration.swift:83-84 | every piece that is a route after trimming contributes what the parser in use makes of it |
| NetworkSettings.ParseRoutesComplete | Sources/TunnelMonitorKit/TunnelConfiguration/PacketTunnelConfiguration.swift:81-85 | every comma-separated piece of the string that is a route after trimming contributes its route, so `split` loses no route |
| NetworkSettings.ParseRoutes | Sources/TunnelMonitorKit/TunnelConfiguration/PacketTunnelConfiguration.swift:81-85 | there are no more routes than non-empty comma-separated pieces; which routes they are is stated by `ParsedRouteOrigin`, `ParsedRouteComplete` and `ParseRoutesComplete` |
| NetworkSettings.ParsePiecesAppend | Sources/TunnelMonitorKit/TunnelConfiguration/PacketTunnelConfiguration.swift:83-84 | pieces are parsed independently and in order |
| NetworkSettings.ParseRoutesAppend | Sources/TunnelMonitorKit/TunnelConfiguration/PacketTunnelConfiguration.swift:81-85 | the routes of two lists joined by a comma are the routes of the first followed by those of the second |
| NetworkSettings.ParseSingleRoute | Sources/TunnelMonitorKit/TunnelConfiguration/PacketTunnelConfiguration.swift:81-85 | a string that is one valid route gives exactly the route the parser in use makes of it |
| NetworkSettings.DnsServers | Sources/TunnelMonitorKit/TunnelConfiguration/PacketTunnelConfiguration.swift:76 | there is at least one server string, and none contains a comma |
| NetworkSettings.DnsServersRoundTrip | Sources/TunnelMonitorKit/TunnelConfiguration/PacketTunnelConfiguration.swift:76 | the servers joined by commas give back the DNS string, and a string without commas is a single server |
| NetworkSettings.PacketTunnelNetworkSettings | Sources/TunnelMonitorKit/TunnelConfiguration/PacketTunnelConfiguration.swift:63-79 | the settings carry the remote address, the MTU, the overhead when one is given, and the tunnel address and subnet as the single IPv4 address and mask; the included and excluded routes are `ParseRoutes` of the two route strings (so exactly the routes `ParsedRouteOrigin`, `ParsedRouteComplete` and `ParseRoutesComplete` describe), and the DNS servers are the comma-separated pieces of the DNS string; the source's settings are those for the `AsWritten` parser |
| NetworkSettings.SingleRouteSettings | Sources/TunnelMonitorKit/TunnelConfiguration/PacketTunnelConfiguration.swift:63-79 | single-route strings and a comma-free DNS string give exactly one included route, one excluded route and that one server; as the source builds them each route's mask is its destination, and corrected it is the text after the colon |
| Text.DecimalString | Sources/TunnelMonitorKit/Util/NEIPv4Route+Util.swift:15 | a numeral is a non-empty string of digits, starts with '0' only for zero, and has one digit exactly for numbers below ten |
| Text.DigitsValueOfDecimal | Sources/TunnelMonitorKit/Util/NEIPv4Route+Util.swift:15 | reading the numeral of a number gives that number |
| Text.Components | Sources/TunnelMonitorKit/TunnelConfiguration/PacketTunnelConfiguration.swift:76 | there is at least one piece, and no piece contains the separator |
| Text.JoinComponents | Sources/TunnelMonitorKit/TunnelConfiguration/PacketTunnelConfiguration.swift:76 | joining the pieces with the separator gives the string back |
| Text.ComponentsWithoutSeparator | Sources/TunnelMonitorKit/TunnelConfiguration/PacketTunnelConfiguration.swift:76 | a string without the separator is a single piece |
| Text.ComponentsAppend | Sources/TunnelMonitorKit/TunnelConfiguration/PacketTunnelConfiguration.swift:76 | cutting at one separator and then cutting both sides gives the same pieces as cutting the whole |
| Text.ComponentsOfJoin | Sources/TunnelMonitorKit/TunnelConfiguration/PacketTunnelConfiguration.swift:76 | separator-free pieces joined and cut again come back unchanged |
| Text.JoinChars | Sources/TunnelMonitorKit/TunnelConfiguration/PacketTunnelConfiguration.swift:76 | every character of a joined string is the separator or a character of some piece |
| Text.JoinAvoids | Sources/TunnelMonitorKit/TunnelConfiguration/PacketTunnelConfiguration.swift:76 | a character in no piece, and not the separator, is not in the joined string |
| Text.NonEmpty | Sources/TunnelMonitorKit/TunnelConfiguration/PacketTunnelConfiguration.swift:82 | keeps exactly the non-empty pieces: everything kept is a non-empty input piece, and every non-empty input piece is kept |
| Text.NonEmptyAppend | Sources/TunnelMonitorKit/TunnelConfiguration/PacketTunnelConfiguration.swift:82 | dropping empty pieces works piece by piece, in order |
| Text.Split | Sources/TunnelMonitorKit/TunnelConfiguration/PacketTunnelConfiguration.swift:82 | split pieces are non-empty and contain no separator, and every non-empty component is among them |
| Text.SplitAppend | Sources/TunnelMonitorKit/TunnelConfiguration/PacketTunnelConfiguration.swift:82 | splitting at one separator and then splitting both sides gives the same pieces as splitting the whole |
| Text.LeadingWhitespace | Sources/TunnelMonitorKit/TunnelConfiguration/PacketTunnelConfiguration.swift:83 | counts the whitespace a string starts with: everything before the count is whitespace and the character at the count is not |
| Text.TrailingWhitespace | Sources/TunnelMonitorKit/TunnelConfiguration/PacketTunnelConfiguration.swift:83 | counts the whitespace a string ends with: everything after the cut is whitespace and the character before it is not |
| Text.Trim | Sources/TunnelMonitorKit/TunnelConfiguration/PacketTunnelConfiguration.swift:83 | a trimmed string neither starts nor ends with whitespace |
| Text.TrimIsInfix | Sources/TunnelMonitorKit/TunnelConfiguration/PacketTunnelConfiguration.swift:83 | the trimmed string is a contiguous part of the original, and everything outside it is whitespace |
| Text.TrimWithoutWhitespace | Sources/TunnelMonitorKit/TunnelConfiguration/PacketTunnelConfiguration.swift:83 | a string without whitespace is left as it is |

## Left out

- Message encoding: JSON (`JSONEncoder`/`JSONDecoder` on `MessageContainer`) is replaced by a byte format of the model's own. It has a tag marker, three bytes per tag character, a terminator, then an absent/present flag and the payload. Only its round trip and its rejection of malformed data are modelled. The exact JSON bytes are not. JSON accepts many texts for one container (whitespace, key order, escapes, an explicit `null` for absent content), so the uniqueness of an encoding proved by `Container.EncodeDecode` holds for the stand-in format only.
- Message types: a Swift metatype is represented by its scope and its unqualified name. `String(describing:)` is modelled as giving the unqualified name, which is why same-named types in different scopes share a tag (see "## Findings").
- Handler and completion closures are ids, and what a handler replies is an input function. Side effects of handlers other than their replies are not modelled.
- ProviderSession.TunnelProviderSessionMock.SendProviderMessage: the declaration `throws`, but this implementation never throws. A send while disconnected, or of undecodable bytes, returns silently, and that is what is modelled.
- ProviderSession.TunnelProviderSessionMock.StartTunnel: the `options` dictionary is ignored by the source and left out.
- MockProviderManager.MockTunnelProviderManager.StartTunnel: the provider (`TMPacketTunnelProvider`) is not part of this model. What its configure and start completions report is an input, and `NoCallback` stands for a completion that is never called. The asynchronous order of callbacks is collapsed into one call.
- MockProviderManager.MockTunnelProviderManager.constructor: `mockSession.setProvider` is not part of this model. The session's `setStatus` is modelled as assigning the status the session reports. The init's throw on a failed encoding is `UserConfigurationData` returning None.
- MockProviderManager.MockTunnelProviderManager: the delegate is weak. It is modelled as an optional id that stays set until it is replaced, and notifications are recorded in the trace rather than delivered.
- `networkSettings` is stored by the mock manager but never read there, and is stored the same way in the model.
- Logging calls inside the manager and the route parser are left out. Log output is recorded as lines instead of going to `os_log`.
- The second logger class (Sources/TunnelMonitorKit/TMOSLogger.swift and the subclass at Logging/TMOSLogger.swift:35-40) applies the same threshold and the same line format with a different sink, so it is covered by `BasicLogger`.
- `Bundle.main.bundlePath` is a constructor parameter.
- `NEVPNStatus` raw values 0–5 are the platform's. `NEIPv4Route`, `NEIPv4Settings` and `NEPacketTunnelNetworkSettings` are plain records.
- Pattern matching assumes ASCII. Unicode digits matched by `\d` and Unicode whitespace beyond space, tab, line feed, carriage return, vertical tab and form feed are not modelled.
- NSRange lengths counted in UTF-16 units and the regex engine's `$` matching before a trailing line terminator are not modelled. A route string is matched in full.
- `TunnelMonitor`, `TMExtensionManager`, the native manager, session and provider classes, the manager factory, the abstract base manager, `TMCommunicationError` and the description tables of errors and stop reasons are not part of this model. They are stubs, platform wrappers or display strings.
- The tunnel settings record `TMTunnelSettings` (bundle id, description, disconnect-on-sleep) only stores its three arguments and is not modelled.
- `Int` overflow is not modelled for the MTU and the overhead, which are only passed through.

## Findings

| source | as written | input that shows it | evidently intended | confidence | as-written member | corrected member |
|---|---|---|---|---|---|---|
| Sources/TunnelMonitorKit/Util/NEIPv4Route+Util.swift:28 | the subnet mask is read from the capture group named `address`, so every parsed route gets its destination as its mask | "0.0.0.0:255.255.255.255" parses with mask "0.0.0.0"; the test at Tests/TunnelMonitorKitTests/UtilTests/NEIPv4RouteTests.swift:20 expects "255.255.255.255" | read the mask from the `subnet` group | high (not executed) | IPv4Route.AsWrittenMaskIsDestination | IPv4Route.CorrectedMaskIsSubnet |
| Sources/TunnelMonitorKit/MessageContainer.swift:49-54 | the tag is `String(describing:)` of the type, which leaves out the enclosing scope, although the doc comment promises a unique representation | a type `Ping` declared in `Client` and another declared in `Server` both get the tag "Ping", so their handlers are mixed up | a tag unique to the type, such as the scope-qualified name | medium (not executed) | Container.MetatypeIgnoresScope | Container.QualifiedMetatypeUnique |

The settings builder takes the parser as an argument (`IPv4Route.RouteParser`). With `AsWritten` it is the source's builder, and every route it produces has its destination as its mask (`NetworkSettings.SingleRouteSettings`). With `Corrected` it builds the intended settings.

`Container.Make` keeps the source's unqualified tag, because the router is keyed by it on both sides of the tunnel. `Container.QualifiedMetatype` is the intended unique tag.
