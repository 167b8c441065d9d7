# Verified core of Thespian

Thespian is an actor runtime whose messages are CBOR buffers. This project models five of its parts
in Dafny and proves what they promise, over every input, every run or every reachable state:

1. **The actor runtime** (`src/instance.cpp`): spawn, link, trap, queue, run and exit. `Actors` is the
   runtime as a state machine in which every callback does arbitrary things; `Lifecycle` is its inductive
   invariant, `Mail` says what one run adds to which mailboxes, `Callbacks` what a callback does to everybody and
   when it ends its actor, `Runs` and `Bonds` hold the results over all runs.
   `Runtime` is the same runtime as an object updated in place, proved to make exactly these transitions.
2. **The remote actor protocol** (`src/remote`): two endpoints joined by two lossless FIFO wires, each with
   a table of proxy actors. `Remote` is the protocol, built on the runtime: proxies and endpoints are actors
   whose callbacks are the source's branches. `RemoteInv`, `RemoteSteps`, `RemoteEndpoint` and `RemoteIds`
   are its invariants; `RemoteMoves` is what every event leaves in place. `RemoteExit` proves that exits cross
   the wire, `RemoteLanes`, `RemoteTransparency`, `RemoteArrivals` and `RemoteRuns` that messages do,
   `RemoteBranches` and `RemoteLinks` that links do, `RemoteNames` that messages to names do, and `RemoteBreaks`
   when exactly these can fail; `RemoteFailures` says when an endpoint ends, `RemoteEnds` what becomes of its
   proxies then, and `RemoteForgets` that proxies are taken out of the table. `RemoteLoss` and
   `RemoteExitLoss` are runs in which a message and an exit are lost. `EndpointObject`
   is the endpoint as an object with its table updated in place.
3. **CBOR and JSON** (`src/cbor.cpp`, `include/cbor/cbor.hpp`): `Cbor` and `CborLaws` (codec and its laws),
   `CborBuffer` and `CborCursor` (encoding and reading in place), `CborMatch`, `CborMatchLaws` and
   `CborMatcher` (the streaming matcher against matching of trees), `JsonText`, `Json`, `JsonLaws`,
   `JsonReader` and `JsonWriter` (parser and printer), `JsonTokens` and `JsonGrammar` (a grammar of the texts
   that the parser accepts).
4. **Stream transport**: `Stream` (taking items off a stream, for any scanner), `Reassembly` (the C++
   endpoint), `Framing` and `Protocol` (the Zig endpoint), `SocketWriter` and `Flush`.
5. **Small concurrent structures**: `TraceLog`, `TraceCount` and `TraceList` (the lock-free trace log), `Hub`, `DebugCalls`,
   and `Screening`, what the runtime does with a message before the receiver of an ordinary actor sees it.

`SocketWriter`, `Flush`, `Hub` and `DebugCalls` each hold a state machine, with the results over all its runs,
and a class updated in place whose methods make exactly its transitions; `Run` ties the class to whole runs.

A message between actors is abstract in parts 1 and 2 and bytes in the others. An event is one atomic step;
runs are arbitrary lists of events, so a result about runs is a result about all interleavings. Events that
cannot occur in a state change nothing. What the models assume of the outside: a strand is FIFO and runs one
task at a time, callbacks and exit handlers do not throw, the wire loses and reorders nothing, messages
between actors are arrays or null, and users of the remote protocol do not forge the control messages of
proxies and endpoints.

## What the proofs found

Where the source does not do what one would expect of it, the model follows the source, and the
difference is proved.

- A proxy ends itself when it is told to deliver to an actor in shutdown or to a name nobody has. What other
  live actors had queued at that proxy is then lost, and so is an exit notice that arrives later. Transparency,
  exit propagation and linking hold in every run but for this (`RemoteRuns.Transparent`,
  `RemoteExit.ExitIsNeverLost`, `RemoteLinks.LinkIsNeverLost`); it happens if and only if a proxy handles an
  undeliverable message (`RemoteBreaks.ProxyBreaksIff`); and where the two proxies on the way handle no such
  message there is no exception (`RemoteBreaks.TransparentWhenDeliverable`,
  `RemoteBreaks.ExitArrivesWhenDeliverable`, `RemoteBreaks.LinkArrivesWhenDeliverable`).
  `RemoteLoss.MessageLost` is a run in which a message between two live actors is lost, and
  `RemoteExitLoss.ExitLost` one in which an actor is never told of the exit of the one it is linked to.
- An exit message with more than a reason is not an exit to a proxy: it is forwarded as a payload
  (`RemoteBranches.LongExitForwarded`), and arrives as a message that is an exit
  (`RemoteExit.ExitIsNeverLost` covers both kinds).
- Printing to JSON and parsing back is the identity exactly on a stated domain (`JsonLaws.ImageExact`).
  Integers of 2^63 and above are rejected, negative ones below -2^63 come back as positive ones, control
  characters without a short escape come back as the letters of their escape, and byte strings as text
  (`JsonLaws.PrintedParses` gives the exact image of every value).
- An integer literal in a match also accepts the negative integer 2^64 below it
  (`CborMatchLaws.IntLiteralMeans`). The number of items of a map is computed modulo 2^64 when it is skipped,
  but not when it is printed.
- A nested pattern on an item of another type throws instead of failing to match.
- In the C++ endpoint an item that is no message makes a framing error and is sent to the owner all the same
  (`Reassembly.Connection.ReadComplete`). Bytes that cannot start an item are handled like an incomplete item,
  and stop delivery for good; nothing else does (`Reassembly.StoppedIff`).
- Eleven bytes are erased in front of a broadcast, which is right if and only if both heads there are one byte
  long (`Hub.ErasedExact`). A broadcast of an empty array is encoded with null and ends the hub
  (`Hub.EmptyBroadcast`), and so does a request to listen, after it has been carried out (`Hub.ListenEnds`).
- A trace record can wait on the stack after all threads have returned (`TraceLog.RecordCanWait`). It does so
  if and only if, since the stack was last taken, a thread failed to get the lock from one that had already
  found the stack empty (`TraceLog.RecordsWaitIff`).
- An ordinary actor is ended by any message that is neither an array nor null, since the test for an exit
  message throws on it (`Screening.ScreenExact`, `Screening.NoArrayEnds`). A debug call that is answered with
  such a message, even late, therefore ends the whole connection of the console
  (`DebugCalls.NoArrayEndsConnection`); every call that is over on an open connection has been answered
  (`DebugCalls.AnsweredWhenOver`).

## Model

| member | source | states |
|---|---|---|
| `Lifecycle.ExecKeeps` | src/instance.cpp:395-477 | Every run keeps the invariant: links recorded at exit are settled, shutdown happens once, mail is handled in acceptance order. |
| `Runs.ExitPropagates` | src/instance.cpp:413-435 | In every run, if A exited, each B in A's link list at that moment is in shutdown, still has the reason queued, handled it while trapping, or it was exactly the normal exit. |
| `Runs.NoticesAreGenuine` | src/instance.cpp:413-416 | In every run, an exit notice that anyone has accepted is the one its sender made when it exited, with that reason; a message that merely looks like one is told apart. |
| `Runs.NormalNoticeIsHarmless` | src/instance.cpp:466-468 | A normal exit notice changes nothing but the mailbox of an actor that does not trap, and no other actor. |
| `Runs.ExitsAtMostOnce` | src/instance.cpp:413-458 | In every run an actor exits at most once, and is in shutdown exactly if it did; envelopes are handled in order. |
| `Runs.SilentAfterExit` | src/instance.cpp:457-458 | After its exit, however the run goes on, an actor's receiver is never called again and no second exit occurs. |
| `Runs.ChildTellsParent` | src/instance.cpp:301-323 | A child made by spawn_link has its parent in its link list before its behaviour first runs, so every exit of it, even for want of a receiver on the first run, is settled at the parent. |
| `Bonds.ParentTellsChild` | src/instance.cpp:520-530 | In every run, the child of a spawn_link is on its parent's list, and if the parent exited the child was on its list then and is settled with its reason. |
| `Bonds.LinkerTells` | src/instance.cpp:548-555 | In every run, whoever sent b a link has b on its list, and if it exited b is settled with its reason. |
| `Bonds.LinkedTells` | src/instance.cpp:441-455 | Once a live actor takes a link, in every continuation it has the sender on its list, and tells it when it exits. |
| `Callbacks.ReceiverExits` | src/instance.cpp:460-479 | A run of the receiver ends the actor exactly if a send or link that had to succeed found its target dead, or the result says so, or no receiver is set; with exactly that reason and the links made so far. |
| `Callbacks.ReceiverActs` | src/instance.cpp:510-555 | Otherwise every mailbox, the new actors, and the actor's own links and modes get exactly what the list of effects says, told without looking at any state in between. |
| `Callbacks.ExitObeyed` | src/instance.cpp:466-468 | An exit message other than the normal one ends an actor that does not trap with exactly its reason, which its links are told; the receiver is not called. |
| `Runtime.Instances.Send` | src/instance.cpp:395-408 | An envelope is queued exactly if the target is not in shutdown, and the send fails exactly if the target is dead and the message no exit. |
| `Runtime.Instances.Exit` | src/instance.cpp:413-435 | The loop over the links is the exit transition, and re-establishes the invariant. |
| `Runtime.Instances.Spawn` | src/instance.cpp:301-323 | A new instance has the link message of its parent, if any, before its wake-up. |
| `Runtime.Instances.Perform` | src/instance.cpp:497-557 | Sends, links, spawns and mode changes made by a callback are the effects of the state machine. |
| `Runtime.Instances.Call` | src/instance.cpp:472-477 | The receiver's effects up to the first failed one, then the exit its result calls for. |
| `Runtime.Instances.Run` | src/instance.cpp:437-496 | One task of a strand is one transition, and keeps the invariant. |
| `Mail.RunAdds` | src/instance.cpp:437-496 | One run takes one envelope and then only appends to mailboxes, and what it appends satisfies whatever its effects and its exit message satisfy. |
| `RemoteEndpoint.NetRunKeeps` | src/remote/endpoint_common.zig:35-109 | Every run of two endpoints keeps the table of proxies consistent on both sides and makes up no exit notice. |
| `RemoteIds.NetStepNamed` | src/remote/endpoint_common.zig:77-109 | No frame, message or table entry ever names an actor that does not exist yet. |
| `RemoteExit.ExitIsNeverLost` | src/remote/proxy.zig:60-97 | In every run, once Y exits with any reason while X and Y are linked across the wire, the notice is at the peer proxy, the far endpoint, the wire or the local proxy, or X has been sent exactly that reason since, by the proxy's own exit or by its delivery, or X or an endpoint has exited or a proxy has failed on a dead send. |
| `RemoteLinks.LinkIsNeverLost` | src/remote/proxy.zig:71-81 | In every run, once X has queued a link for its proxy of Y, then as long as X has not exited and Y, the endpoints and the proxies are alive, the request is at the proxy, the endpoint, the wire or the peer proxy, or has reached Y. |
| `RemoteLinks.ArrivedIsLinked` | src/remote/proxy.zig:77-81 | Once Y has recorded the link, X and Y are linked across the wire in the sense from which exits propagate. |
| `RemoteBranches.LinkForwarded` | src/remote/proxy.zig:71-76 | A link is recorded by the proxy and forwarded with the linking actor's id, and nothing else happens. |
| `RemoteBranches.NotifyLinks` | src/remote/proxy.zig:77-81 | A notify request links the proxy and its live target both ways, and nothing else happens. |
| `RemoteBranches.LongExitForwarded` | src/remote/proxy.zig:90-97 | An exit message with more than a reason is forwarded to the remote actor as a message, and nothing else happens. |
| `RemoteBranches.LocalExitReported` | src/remote/proxy.zig:60-68 | The exit of a local actor is reported to the endpoint with its id and reason, and the proxy goes on. |
| `RemoteBranches.RemoteExitFollowed` | src/remote/proxy.zig:69-70 | On its endpoint's notice the proxy has itself forgotten and exits with exactly that reason, which tells its links. |
| `RemoteTransparency.ProxyForwardsExact` | src/remote/proxy.zig:90-97 | Any other message is forwarded to the endpoint with its sender's id, the proxy's remote id and its payload. |
| `RemoteTransparency.DeliveryExact` | src/remote/proxy.zig:85-89 | A delivery that the proxy survives queues the payload for a live target, from the proxy, and otherwise changes nothing. |
| `RemoteRuns.Transparent` | src/remote/proxy.zig:82-97 | In every run, while X has not exited and Y and the endpoints are alive, what X sent to its proxy for Y is what Y was sent by the proxy for X followed by what is in flight at each stage in order, unless one of the two proxies failed on a dead send. |
| `RemoteRuns.UniqueProxy` | src/remote/endpoint_common.zig:65-75 | An actor that has not exited has at most one proxy on the other side, the one in the table. |
| `RemoteRuns.DownIsBroken` | src/remote/proxy.zig:60-76 | Between live endpoints, the proxy of an actor that has not exited is down exactly if a send of its own failed. |
| `RemoteBreaks.ProxyBreaksIff` | src/remote/proxy.zig:77-89 | While its endpoint is alive, a proxy is ended by a failed send if and only if the message it handles is undeliverable. |
| `RemoteBreaks.TransparentWhenDeliverable` | src/remote/proxy.zig:82-97 | In every run in which the two proxies on the way handle no undeliverable message, transparency has no exception. |
| `RemoteBreaks.LinkArrivesWhenDeliverable` | src/remote/proxy.zig:71-81 | In every such run a link request is on its way or has arrived, without exception. |
| `RemoteBreaks.ExitArrivesWhenDeliverable` | src/remote/endpoint_common.zig:96-100 | In every such run an exit notice, with any reason, is in transit or told, or X or an endpoint has itself exited. |
| `RemoteBreaks.NoticeDiesWithProxy` | src/remote/endpoint_common.zig:96-100 | An exit frame for a proxy that has failed tells nobody. |
| `RemoteLoss.MessageLost` | src/remote/proxy.zig:82-84 | A run in which a message between two live actors with live endpoints is lost, because the proxy failed on an unknown name. |
| `RemoteExitLoss.ExitLost` | src/remote/endpoint_common.zig:96-100 | A run from the start in which X and Y are linked across the wire, Y exits, X and both endpoints are alive, nothing is in transit, and X has not been told. |
| `RemoteEnds.ProxiesFollow` | src/remote/endpoint_common.zig:25-33 | In every run, when an endpoint is down, every proxy in its table has exited or has the farewell before it; one that was live when it handled the farewell exited with exactly "transport_closed"; and whoever was on the list of an exited proxy is settled with its reason. |
| `RemoteEnds.FarewellEnds` | src/remote/proxy.zig:58-59 | A live proxy that handles the farewell exits with exactly that reason, and with all its links. |
| `RemoteEnds.LinkedHearOfClosing` | src/remote/proxy.zig:58-59 | In every run, if X was linked to a live proxy and its endpoint has gone down since, the proxy has the farewell before it and X on its list, or it has exited and X is settled with its reason. |
| `RemoteFailures.ReadEnds` | src/remote/endpoint_common.zig:77-109 | Reading a frame ends a live endpoint exactly if it is a transport error, with that reason, or its sender's proxy or the actor named is dead. |
| `RemoteFailures.MessageEnds` | src/remote/endpoint_common.zig:35-55 | A message ends a live endpoint exactly if it is none that the endpoint knows. |
| `RemoteFailures.FailureEnds` | src/remote/endpoint_connection.zig:90-106 | A failure of the transport ends the endpoint with its own reason. |
| `RemoteFailures.ErrorIsNeverLost` | src/remote/endpoint_common.zig:77-109 | In every run, once an endpoint has failed and told its peer, the error is on the wire or the peer has ended too. |
| `RemoteForgets.GoneIsForgotten` | src/remote/endpoint_common.zig:35-55 | In every run, an entry of a live endpoint's table is a live proxy, or one that failed on a dead send, or the message that takes it out is waiting. |
| `RemoteNames.NamedIsNeverLost` | src/remote/proxy.zig:82-84 | In every run, once a live endpoint has been handed a message for a name, it is there, on the wire or at a live proxy of its sender, or somebody was given it, or an endpoint or a proxy of the sender has ended. |
| `RemoteNames.NamedDelivered` | src/remote/proxy.zig:82-84 | The proxy gives the message to the live actor that has the name, and otherwise ends on a dead send. |
| `RemoteMoves.LocalAdds` | src/remote/endpoint_common.zig:35-109 | Every event only appends to mailboxes, once its actor has taken its own envelope. |
| `EndpointObject.Endpoint.GetOrCreateProxy` | src/remote/endpoint_common.zig:65-75 | The proxy in the table, which is made and entered if there was none. |
| `EndpointObject.Endpoint.DispatchInbound` | src/remote/endpoint_common.zig:77-109 | An inbound frame has the effects of the protocol model, and fails when it does. |
| `EndpointObject.Endpoint.Feed` | src/remote/endpoint_common.zig:57-63 | Handling one frame, with whatever goes wrong, is the read event of the protocol model. |
| `EndpointObject.Endpoint.Handle` | src/remote/endpoint_common.zig:35-55 | A message becomes the frame it should, a leaving proxy is forgotten, anything unknown is an error. |
| `EndpointObject.Endpoint.Receive` | src/remote/endpoint_common.zig:35-55 | One message to the endpoint is the run event of the protocol model. |
| `EndpointObject.Endpoint.Deinit` | src/remote/endpoint_common.zig:25-33 | Every proxy in the table is told exactly once that the transport closed. |
| `Cbor.RoundTrip` | src/cbor.cpp:408-440 | Decoding the encoding of any value, followed by any bytes, gives the value and exactly these bytes. |
| `Cbor.EncodingsDiffer` | src/cbor.cpp:35-63 | No encoding is a prefix of another value's encoding. |
| `Cbor.Containers` | src/cbor.cpp:35-63 | Encodings listed in appendix A of RFC 8949, for arrays and maps. |
| `Cbor.LargerIntegers` | src/cbor.cpp:35-63 | The same for integers of two and four bytes. |
| `Cbor.SmallIntegers` | src/cbor.cpp:35-63 | The same for small integers. |
| `Cbor.Strings` | src/cbor.cpp:81-91 | The same for strings. |
| `Cbor.Simples` | src/cbor.cpp:35-63 | The same for simple values and a half. |
| `CborLaws.SkipIsDecode` | src/cbor.cpp:561-612 | Skipping accepts exactly what decoding accepts, fails in the same way, and stops at the same place. |
| `CborLaws.SkipStable` | src/cbor.cpp:592-612 | What follows an item changes neither where it ends nor, for bytes that cannot be an item, that they are rejected. |
| `CborLaws.Completed` | src/cbor.cpp:561-612 | Whatever fails as too short can be completed to exactly one item. |
| `CborLaws.PrefixTooShort` | src/cbor.cpp:500-507 | Every strict prefix of an item fails as too short. |
| `CborLaws.ItemAlone` | src/cbor.cpp:592-595 | The bytes of an item, by themselves, are that item and nothing more. |
| `CborLaws.EncodeShortest` | src/cbor.cpp:35-63 | Whatever bytes decode to a value, its encoding is no longer than these (RFC 8949, section 4.1). |
| `CborBuffer.Int64RoundTrip` | include/cbor/cbor.hpp:171-178 | Every 64-bit integer, the smallest included, survives the mapping to -(n + 1) and back. |
| `CborBuffer.NegatedExact` | src/cbor.cpp:442-444 | The wrap-around of decode_nint gives -1 - n if and only if n is below 2^63. |
| `CborBuffer.Buffer.PushTypedVal` | src/cbor.cpp:35-63 | The bytes appended are the shortest head. |
| `CborBuffer.Buffer.PushWord` | src/cbor.cpp:65-79 | A word is appended in n bytes, most significant first. |
| `CborBuffer.Buffer.PushInt` | include/cbor/cbor.hpp:171-178 | The encoding of the integer is appended. |
| `CborBuffer.Buffer.PushString` | src/cbor.cpp:81-91 | The encoding of the text is appended. |
| `CborBuffer.Buffer.PushArray` | include/cbor/cbor.hpp:223-241 | An array without elements is encoded as null. |
| `CborBuffer.Buffer.Push` | include/cbor/cbor.hpp:188-215 | Exactly the encoding of a value tree is appended. |
| `CborCursor.Cursor.DecodeWord` | src/cbor.cpp:408-423 | Reading a word byte by byte never overflows the 64-bit accumulator, and ends where it should. |
| `CborCursor.Cursor.DecodePint` | src/cbor.cpp:425-440 | The argument of a head, or one of its two failures. |
| `CborCursor.Cursor.SkipValue` | src/cbor.cpp:592-595 | The iterator ends exactly where the specification says, or fails as it says; the recursion terminates. |
| `CborCursor.Cursor.SkipItems` | src/cbor.cpp:597-612 | The loops over the items of arrays and maps. |
| `CborMatchLaws.MatchRefines` | include/cbor/cbor.hpp:83-151 | On any well-formed item the streaming matcher accepts, rejects or throws exactly as matching of the decoded tree does, captures the same, and on success stands exactly after the item. |
| `CborMatchLaws.MatchArrayRefines` | include/cbor/cbor.hpp:145-151 | On the encoding of any array, followed by anything, a match succeeds exactly when the elements match the parameters. |
| `CborMatchLaws.NameAlone` | include/cbor/cbor.hpp:145-151 | A name by itself matches exactly the arrays of only that name, and throws exactly on what is neither an array nor null. |
| `CborMatchLaws.NameAnd` | include/cbor/cbor.hpp:145-151 | A name and one more parameter match exactly the pairs of that name and such an item. |
| `CborMatchLaws.RangeCaptured` | src/cbor.cpp:867-879 | The range captured after a name is exactly the bytes of the second item. |
| `CborMatchLaws.LeafAgrees` | src/cbor.cpp:614-760 | The patterns for types, literals and extractors agree with the decoded value. |
| `CborMatchLaws.HeaderTells` | src/cbor.cpp:525-541 | Array and map headers: null reads as empty, and any other type throws. |
| `CborMatchLaws.IntLiteralMeans` | src/cbor.cpp:671-687 | An integer literal accepts that integer and, by wrap-around, the negative integer 2^64 below it, and nothing else. |
| `CborMatcher.Match` | include/cbor/cbor.hpp:120-133 | The matcher in place does what its specification says and moves the iterator there. |
| `CborMatcher.MatchParameters` | include/cbor/cbor.hpp:83-109 | match_next over the parameter list. |
| `CborMatcher.MatchMore` | include/cbor/cbor.hpp:86-93 | The loop for a trailing `more` consumes all remaining items. |
| `CborMatcher.MatchRange` | src/cbor.cpp:867-879 | The range extractor captures exactly the bytes of one null, array or map. |
| `CborMatcher.MatchSimple` | src/cbor.cpp:614-860 | The remaining match functions and extractors. |
| `JsonLaws.RoundTripsThroughText` | src/cbor.cpp:890-1008 | A value in the domain is printed as a text that parses as that value. |
| `JsonLaws.PrintedParses` | src/cbor.cpp:368-393 | The printed text of any value parses as its exact image, or is rejected when its image says so. |
| `JsonLaws.ImageExact` | src/cbor.cpp:148-193 | Printing and parsing gives a value back if and only if it is in the domain. |
| `Json.ParsedWellFormed` | src/cbor.cpp:290-393 | Whatever text is accepted yields a well-formed value. |
| `JsonGrammar.ParsesIff` | src/cbor.cpp:290-393 | The parser accepts exactly the texts that a grammar over bytes spells out, with white space, separators, escapes, fractions and exponents; with exactly the value that they denote; and stops exactly where they end. |
| `JsonGrammar.SpaceIsFree` | src/cbor.cpp:96-115 | Blanks, tabs, carriage returns and line feeds in front of a value change nothing. |
| `JsonTokens.NumberScanned` | src/cbor.cpp:138-193 | A number that is spelled out and ends is read as a whole. |
| `JsonTokens.NumberFound` | src/cbor.cpp:138-193 | What is read as a number is spelled out, and is read as far as it goes. |
| `JsonTokens.NumberValued` | src/cbor.cpp:173-192 | Its value: at most 64 characters, an integer of 64 bits, or a double. |
| `JsonTokens.StringFound` | src/cbor.cpp:195-238 | What is read as a string is spelled out, with the meaning of every escape. |
| `Json.PrintedArray` | src/cbor.cpp:941-1008 | An array is printed in brackets with single commas, and nothing else. |
| `Json.PrintedMap` | src/cbor.cpp:941-1008 | A map is printed in braces with a colon in each pair and commas between pairs. |
| `Json.PrintedWords` | src/cbor.cpp:890-926 | The spelling of the keywords and of escapes. |
| `JsonText.RereadExact` | src/cbor.cpp:890-926 | A string is read back as it was if and only if it holds no control character without a short escape. |
| `JsonReader.PushJson` | src/cbor.cpp:395-403 | A text is accepted exactly if it starts with one that denotes a value by the grammar; what is appended then is exactly one well-formed item of that value; a rejected text leaves the buffer as it was. |
| `JsonReader.Reader.PushValue` | src/cbor.cpp:368-393 | Exactly the encoding of the parsed value is appended, or nothing; parsing terminates. |
| `JsonReader.Reader.PushNumber` | src/cbor.cpp:148-192 | Number tokens of at most 64 characters; integers outside 64 bits are rejected. |
| `JsonReader.Reader.PushStringSlow` | src/cbor.cpp:195-238 | The escaped path. |
| `JsonReader.Reader.PushQString` | src/cbor.cpp:262-275 | The fast path without escapes agrees with the slow one. |
| `JsonReader.Reader.PushItems` | src/cbor.cpp:293-365 | The loops over the items of arrays and maps, with their lenient separators. |
| `JsonReader.Reader.PushList` | src/cbor.cpp:293-365 | Items are collected in a buffer of their own and counted; a map with an odd count is rejected. |
| `JsonWriter.EncodedPrints` | src/cbor.cpp:941-1008 | On the encoding of a value, followed by anything, exactly the text of the value is written. |
| `JsonWriter.Write` | src/cbor.cpp:941-1008 | The printer in place writes what its specification says and stops there. |
| `JsonWriter.WriteString` | src/cbor.cpp:890-926 | Every character is escaped as it should be. |
| `JsonWriter.PrintAndParse` | src/cbor.cpp:395-403 | A value of the domain that is encoded, printed and parsed appends exactly its encoding. |
| `Stream.ChunksDoNotMatter` | src/instance.cpp:1738-1761 | For any scanner that later bytes do not confuse, the items taken and what is left do not depend on how the stream is cut. |
| `Stream.DrainPrefix` | src/instance.cpp:1738-1761 | At any point of a stream of whole items, the first k have been taken, and what is left is a strict prefix of the next. |
| `Reassembly.Connection.ReadComplete` | src/instance.cpp:1738-1761 | All complete items at the front are sent to the owner, in order, and no more; the connection is being closed after an empty read or an item that is no message. |
| `Reassembly.Run` | src/instance.cpp:1738-1761 | Reads one by one take the stream apart as the specification does. |
| `Reassembly.NoticesExact` | src/instance.cpp:1743-1755 | Every item is sent on, in order, and a framing error stands exactly before each that is no message. |
| `Reassembly.IsMessageExact` | src/instance.cpp:1748-1751 | Messages are exactly the items whose value is null, an array or a map. |
| `Reassembly.EveryMessageArrives` | src/instance.cpp:1738-1761 | The owner is sent exactly the messages written to the stream, however it is cut into reads. |
| `Reassembly.PartOfStream` | src/instance.cpp:1738-1761 | In between, the buffer holds a strict prefix of the next message. |
| `Reassembly.NothingMore` | src/instance.cpp:1743-1759 | Once the buffer cannot start an item, no later reads deliver anything, and all bytes are kept. |
| `Reassembly.StoppedIff` | src/instance.cpp:1743-1759 | Between reads, delivery has stopped for good if and only if no item starts with what the buffer holds. |
| `Framing.WriteFrame` | src/remote/framing.zig:4-19 | The frame is written if and only if it fits. |
| `Framing.Accumulator.Feed` | src/remote/framing.zig:28-36 | The frame returned by the last call is dropped, and the next one returned without being taken off. |
| `Framing.FeedAll` | src/remote/endpoint_common.zig:57-63 | Each complete frame is dispatched exactly once and in order, and the loop ends. |
| `Framing.Run` | src/remote/endpoint_common.zig:57-63 | However a stream is cut into chunks, the accumulator in place dispatches exactly the frames of the whole stream, and keeps the rest. |
| `Framing.FrameWhole` | src/remote/framing.zig:4-19 | A frame is one item and carries its payload. |
| `Framing.FrameValue` | src/remote/framing.zig:4-19 | A frame is a byte string with a length of four bytes. |
| `Protocol.EncodeMessage` | src/remote/protocol.zig:40-48 | The frame of a message is written if and only if it fits. |
| `Protocol.MessageRoundTrip` | src/remote/protocol.zig:50-73 | decode gives back the message given to encode, with its payload byte for byte. |
| `Protocol.WireFormat` | src/remote/protocol.zig:40-48 | The body of a frame holds exactly the array of the message's name, spelled out, and its fields. |
| `Protocol.EveryMessageDispatched` | src/remote/protocol.zig:40-73 | However the frames of a list of messages are cut, each is dispatched once, in order, and decodes to its message. |
| `SocketWriter.Writer.Write` | src/instance.cpp:1196-1214 | Queues while a write is in flight and starts one otherwise, as the state machine does. |
| `SocketWriter.WritesKeep` | src/instance.cpp:1196-1214 | Writes while one is in flight do not touch its buffer; nothing is lost. |
| `SocketWriter.Writer.WriteComplete` | src/instance.cpp:1156-1177 | A completion with its callback is the transition of the state machine. |
| `SocketWriter.CompleteKeeps` | src/instance.cpp:1156-1177 | Exactly the bytes reported have left, those written from the callback are added, and a write is pending exactly while bytes are left. |
| `SocketWriter.BytesConserved` | src/instance.cpp:1156-1214 | In every run, transmitted, buffered and queued bytes make up all that was written, in call order. |
| `SocketWriter.Run` | src/instance.cpp:1156-1214 | The writer in place goes through exactly the states of the state machine, for every list of steps. |
| `Flush.Connection.SendFrame` | src/remote/endpoint_connection.zig:124-127 | The frame is written and counted. |
| `Flush.FrameKeeps` | src/remote/endpoint_connection.zig:124-127 | The byte count stays exactly what is left to write. |
| `Flush.Connection.WriteComplete` | src/remote/endpoint_connection.zig:96-98 | A completion is the transition of the state machine. |
| `Flush.CompleteKeeps` | src/remote/endpoint_connection.zig:96-98 | The saturating subtraction never saturates; a deferred exit closes exactly when all frames have been transmitted. |
| `Flush.Connection.Exit` | src/remote/endpoint_connection.zig:107-111 | The first reason is kept; the connection closes at once exactly if nothing is unwritten. |
| `Flush.Connection.FlushTimeout` | src/remote/endpoint_connection.zig:112-113 | A timeout closes with the deferred reason. |
| `Flush.FlushedBeforeClose` | src/remote/endpoint_connection.zig:84-127 | In every run, a close after a flush comes after every frame sent before it was transmitted, with the first reason asked for, and a connection that was asked to exit and has transmitted everything is closed. |
| `Flush.EndsExactly` | src/remote/endpoint_connection.zig:96-118 | After any run, each event that can occur ends the connection exactly when it should: a timeout always, with the first reason asked for; a transport error always, with its own; a completion when it covers all bytes left and an exit was asked for; an exit request when none are left; a frame never. |
| `Flush.Run` | src/remote/endpoint_connection.zig:84-127 | The connection in place goes through exactly the states of the state machine, for every list of events. |
| `TraceLog.NothingIsLost` | src/trace.cpp:65-91 | In every interleaving, records written, taken and on the stack make up all records in compare-exchange order. |
| `TraceCount.EveryRecordCounts` | src/trace.cpp:65-71 | In every run, every record begun is in the order, or its thread is still about to push it, exactly as often as it was begun; when all threads have returned it is in the order. |
| `TraceLog.NoDangling` | src/trace.cpp:72-91 | No thread follows a pointer to a freed node, although addresses are reused. |
| `TraceLog.Destruct` | src/trace.cpp:49-52 | The destructor leaves every record written exactly once, in order. |
| `TraceLog.RecordCanWait` | src/trace.cpp:65-79 | A record can be left on the stack when all threads have returned. |
| `TraceLog.RecordsWaitIff` | src/trace.cpp:65-91 | In every run, when all threads have returned there are records on the stack if and only if, since it was last taken, a thread failed to get the lock from one that had already found the stack empty. |
| `TraceLog.AllWrittenInTime` | src/trace.cpp:65-91 | In every run without such a failure, all records have been written, in compare-exchange order, once all threads have returned. |
| `TraceList.Reverse` | src/trace.cpp:54-64 | The list is reversed in place, with the same nodes. |
| `TraceList.Drain` | src/trace.cpp:83-89 | The records of a taken stack are written in the order of their pushes. |
| `Hub.HubImpl.PushFilter` | src/hub.cpp:35-39 | The filter and, if the hub has not ended, the message that announces it are queued in one step. |
| `Hub.OwnFilter` | src/hub.cpp:40-45 | A filter is there whenever one is popped, it is the one that the subscriber passed, and the queue stays in step with the mailbox. |
| `Hub.HubImpl.Receive` | src/hub.cpp:61-112 | One message is handled as the state machine does, whether it reaches the receiver or not. |
| `Hub.EveryoneServed` | src/hub.cpp:61-130 | In every run, mail is handled in the order it was sent, and all of it is handled or waiting unless the hub has ended; the subscribers are the subscriptions handled, each with its own filter; each has been sent, in order and once, exactly the broadcasts handled since that its filter accepts; the hub has ended exactly if it handled a message that ends it. |
| `Hub.HubImpl.SendAll` | src/hub.cpp:64-75 | The loop over the subscribers. |
| `Hub.SendsExact` | src/hub.cpp:64-75 | Each subscriber is sent the broadcast once if its filter accepts it, and not at all otherwise. |
| `Hub.ErasedExact` | src/hub.cpp:62-63 | The erase leaves exactly the inner array if and only if both heads in front of it are one byte long. |
| `Hub.BroadcastErased` | src/hub.cpp:62-63 | A broadcast as the library encodes it is recognised, and its inner array is passed on byte for byte. |
| `Hub.EmptyBroadcast` | src/hub.cpp:62-111 | A broadcast of an empty array is not recognised, and ends the hub. |
| `Hub.ListenEnds` | src/hub.cpp:101-111 | A request to listen, to whatever, is carried out and then ends the hub as unexpected. |
| `Hub.AnnouncementRead` | src/hub.cpp:38-86 | The message that announces a filter is read as such and as nothing else. |
| `Hub.LinksAreKept` | src/instance.cpp:441-468 | A link, which every subscriber sends first, and the normal exit change nothing in the hub. |
| `Hub.ClassifyExact` | src/hub.cpp:61-112 | What becomes of any whole message, in terms of its decoded value: which arrays broadcast, subscribe, subscribe with names, shut the hub down, ask to listen, or end it as unexpected. |
| `Hub.NamesExact` | src/hub.cpp:89-93 | The names of a subscription are exactly the bytes of its second item. |
| `Hub.SubscriberExact` | src/hub.cpp:79-99 | Which message subscribes whom and with which filter, in terms of its decoded value. |
| `Screening.ScreenExact` | src/instance.cpp:437-477 | An ordinary actor takes no notice of a link and of the normal exit, is ended by every other exit and by every message that is neither an array nor null, and receives all else. |
| `Screening.NoArrayEnds` | src/cbor.cpp:525-532 | Bytes that start neither an array nor null end the actor, complete or not. |
| `Screening.PassedIsRange` | src/instance.cpp:466-472 | A whole message that is received can be extracted as a range. |
| `Hub.Run` | src/hub.cpp:61-130 | The hub in place goes through exactly the states of the state machine, for every interleaving of messages, subscriptions and its own steps. |
| `DebugCalls.Connection.Dispatch` | src/instance.cpp:2487-2537 | Every command is answered at once, except a call that was started, which is pending under a number of its own. |
| `DebugCalls.Connection.ProxyReceives` | src/instance.cpp:2302-2312 | A proxy that waits reports a timeout or a reply; one that has timed out discards what it receives. |
| `DebugCalls.Connection.ProxyRuns` | src/instance.cpp:437-477 | A message reaches the proxy's receiver, or is kept from it, or ends the proxy. |
| `DebugCalls.Connection.ProxyStarts` | src/instance.cpp:2314-2333 | A request that cannot be sent is reported once. |
| `DebugCalls.Connection.ProxyEnds` | src/instance.cpp:413-416 | The exit of a proxy goes to the connection. |
| `DebugCalls.Connection.TakeCall` | src/instance.cpp:2396-2403 | The id of a pending call, which is then no longer pending. |
| `DebugCalls.Connection.Receive` | src/instance.cpp:2593-2605 | A report is answered; the exit of a proxy ends the connection. |
| `DebugCalls.RepliesAreRead` | src/instance.cpp:2593-2597 | Every reply that a proxy passes on can be written out. |
| `DebugCalls.CommandsConserved` | src/instance.cpp:2487-2605 | In every run, commands processed are responses written plus calls pending; a call is answered at most once, with its own id; it is pending exactly if it may still be answered or its proxy was ended while it waited. |
| `DebugCalls.AnsweredWhenOver` | src/instance.cpp:2294-2334 | In every run, a call whose proxy is gone and has no message waiting on an open connection has been answered exactly once, with its own id, and with what was reported first: the first message that reached the proxy's receiver, unless that was the timeout or the request could not be sent. |
| `DebugCalls.EffectExact` | src/instance.cpp:2302-2312 | What any whole message does to a waiting proxy, in terms of its decoded value: only an array of exactly "debug_call_timeout" is the timeout; any other array or null that is no link or exit is a reply. |
| `DebugCalls.CallCompletes` | src/instance.cpp:2504-2514 | After any run without the exit of a proxy waiting, a call whose proxy gets a reply or a timeout is answered with just that once the notes have been taken. |
| `DebugCalls.EndedWithProxy` | src/instance.cpp:413-416 | In every run, if a proxy was ended, the connection is closed or the exit that closes it is waiting. |
| `DebugCalls.NoArrayEndsConnection` | src/instance.cpp:466-482 | In every continuation of a run in which a proxy got a message that is neither an array nor null, the connection is closed or the exit that closes it is waiting. |
| `DebugCalls.Run` | src/instance.cpp:2487-2605 | The connection in place goes through exactly the states of the state machine, for every list of events. |

## Left out

- The executor, timers, signals, UDP, acceptors, connectors and file streams: wrappers without logic of their own; a strand is taken to be FIFO.
- Data races on `in_shutdown` and `lifetime_`: `queue` and `run` are atomic steps.
- Exceptions thrown by callbacks, exit handlers, synchronous receivers and tracing.
- Conversion of floating point numbers from and to text: a parameter of parsing and of printing; in the codec they are opaque words.
- CBOR tags and indefinite lengths, which the source rejects.
- The Zig package `cbor` and the encoding of typed ids: not part of this model; they are taken to use the wire format of the C++ codec, with ids as plain unsigned integers.
- Captures of a match that fails: the source may have written to them.
- `value_iterator`, `value_accessor` and hex dumps: they only repeat skipping and matching.
- The debug console's text mode and taps.
- The close of the C++ `endpoint::connection`, whose pending flag is cleared by any completion.
- Deferred exits inside the remote protocol: an exit message to an endpoint takes effect by a later failure event, whose timing is arbitrary; `Flush` models the deferral itself.
- The recursion depth of nested items and the sizes of buffers in memory.
- `RemoteLoss.MessageLost`: one run, not a measure of how often such runs occur.
- `RemoteExitLoss.ExitLost`: the same.
- `JsonWriter.PrintAndParse`: for texts shorter than 2^64 characters.
- `Reassembly.Connection.ReadComplete`: does not model what `close` does to later reads, nor a send to the owner that fails.
- `Hub.HubImpl.Send`: a message that announces a filter without one in the queue is not modelled; the source then pops from an empty queue, which is undefined. Filters do not throw.
- `DebugCalls.Connection.Receive`: reports forged by other actors are not modelled.
- `DebugCalls.Connection.ProxyRuns`: messages are whole items; bytes that are cut short are not modelled.
