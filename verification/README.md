# Verification of sdr-slc-rtld

sdr-slc-rtld is a daemon that serves an RTL-SDR dongle to network clients: a framed JSON control plane, a VITA-49
sample stream over UDP, a pre-shared-key gate and a small mDNS responder.  This project models those cores in Dafny
and proves what they keep over every input and every run.

* **JSON** (`JsonText`, `Jsmn`, `JsmnFlatten`, `JsmnSafety`, `JsmnAccepts`, `JsmnCounts`, `TokLookup`, `TokOwn`,
  `JsonEscape`, `JsonBuilder`, `JsonRoundTrip`).  The in-place tokeniser is a class proved to refine a pure machine.
  The machine is proved to flatten every well-formed text, to stay in bounds with nested spans on arbitrary bytes, and
  to accept exactly what a recogniser with a stack accepts.  Lookup by child counts agrees with the tree, and on
  malformed text that is accepted it is known exactly when it stays below the token count and when it answers the
  right key's value.  The builder with its 16 comma flags is proved against the canonical text.
* **Authentication** (`Sha256`, `Sha256Laws`, `Sha256Roots`, `Sha256Example`, `Auth`, `AuthMachine`).  Streaming
  SHA-256 and HMAC against their one-shot definitions, the parts of those by laws and by the published example,
  `auth_verify`, and the challenge and failure-window machine of one connection.
* **VITA-49** (`Bytes`, `VitaPacket`, `VitaSender`).  Exact stamps, packet layout, and the slot table with the log of
  every packet it sent and the bytes of each.
* **mDNS** (`MdnsCodec`, `MdnsResponse`, `MdnsBuilder`, `MdnsQuery`, `MdnsAdvert`, `MdnsTxt`, `MdnsChoice`).  The
  builder with name compression, the reader that follows pointers, the strings the daemon advertises, and which
  records a query gets.
* **Control plane** (`Radio`, `ControlPlane`, `ControlFrames`, `ControlInvariants`, `ControlStreams`, `ControlLaws`,
  `ControlEvents`, `ControlWire`, `ControlDatagrams`, `ControlAuth`, `ControlAuthRuns`, `ControlLimits`,
  `ControlReplies`, `ControlOwner`, `ControlNews`, `ControlDaemon`).  `ControlPlane` is one state machine over the
  session table, the rx owner, the VITA slots, the radio and the log of every message; a step is one connect, command,
  USB buffer or disconnect, and what the hardware, the clock and the random source answer is part of the step.
  `ControlDaemon` is the daemon as a class that changes its tables in place and hands out datagrams, each method
  proved to take the state to exactly what the machine says.  `ControlFrames` takes a frame's bytes to the request the
  machine acts on.  The other modules prove what the machine keeps over every run (`ControlInvariants.Trace`).

Seven properties one might expect do not hold as they stand.  Each is stated with its exact condition and with an
input or a run that shows the failure.

* `jb_*` keeps one comma flag for each of 16 depths, so a container whose members lie at depth 16 or deeper loses the
  commas between them (`JsonBuilder.CanonicalIff`, `SixteenDeepLosesComma`).
* `hello` may succeed again on a connection with an open stream and resets its state, after which start_rx takes a
  second slot and a second count (`ControlInvariants.StrongKeptIff`, `ControlLaws.LeakRun`).  That owner, owns_rx and
  stream_open agree survives even this (`AlwaysWeak`); one successful hello per connection is enough for the rest
  (`OneHelloEach`).
* A refused sample rate is recorded as the requested rate without an event (`ControlEvents.ExactKeptIff`,
  `RefusedRateRun`), so a client is certainly right about it only while no rate was refused since it was last told
  (`ClientKnows`).
* A connection that does not hold rx, or that never authenticated, can switch off a bias tee another client switched
  on, by leaving (`ControlOwner.BystanderChangesNothing`, `ControlAuth.LockedChangesNothing`,
  `ControlAuthRuns.BiasRun`, `NineteenRun`).  It can change nothing else.
* On accepted text with a key that has no value, a lookup, and with it the session thread, can read past the tokens
  (`TokLookup.LookupStaysIff`, `KeyAloneOverruns`, `ControlFrames.EnvelopeOverrunsIff`), or answer another object's
  token (`TokOwn.OwnValueIff`, `StrayAnswers`).
* An mDNS answer too long for its buffer is not sent, but if its last record's data would begin behind the buffer a
  length is written past it (`MdnsBuilder.SendRecords`, `MdnsAdvert.AnnouncementFits`, `LongTextStrays`).  What this
  daemon advertises is far too short for that (`MdnsAdvert.DaemonFits`).  A name with an empty label, such as `a..b`,
  is not read back (`MdnsAdvert.NameReadsIff`).
* The fraction of the time stamp can be wrong at some packet exactly when the rate exceeds 18446744 by more than its
  greatest common divisor with 256 (`VitaPacket.FractionExactIff`, `FractionFails`, `VitaSender.SentWrong`).  The
  rates the daemon offers do not (`ControlWire.OfferedRatesExact`).

Where the code and its comments differ, the model follows the code.

## Model

| member | source | states |
|---|---|---|
| `Jsmn.Parser.constructor` | json/jsmn.h:141-145 | a new parser is the machine's start state: nothing read, no token, no open container |
| `Jsmn.Parser.AllocToken` | json/jsmn.h:57-68 | a token is handed out exactly when the array has room, with start and end -1 and size 0, and no other token moves |
| `Jsmn.Parser.ParsePrimitive` | json/jsmn.h:78-101 | the loop refines the primitive scan: same end, same error, one token over the span; the position is restored when there is no token left, and stays where the scan stopped on any other error |
| `Jsmn.Parser.SkipEscape` | json/jsmn.h:117-135 | the escape branch moves as the string scan does, and stops with it; which escapes that are is StringTakenIff |
| `Jsmn.Parser.ParseString` | json/jsmn.h:103-139 | the loop refines the string scan; no token is kept on failure, and the position is restored only when there is no token left |
| `Jsmn.Parser.OpenContainer` | json/jsmn.h:159-177 | an opening bracket adds an open token, counts it in its parent and becomes the parent |
| `Jsmn.Parser.CloseContainer` | json/jsmn.h:179-214 | the backward loops find the last open token, check its kind, close it and make the nearest open token the parent |
| `Jsmn.Parser.Comma` | json/jsmn.h:230-248 | a comma moves the parent to the last open container when the current one is not a container |
| `Jsmn.Parser.ParseChar` | json/jsmn.h:154-275 | one turn of the main switch is one step of the pure machine, for every character, error and token budget |
| `Jsmn.Parser.AllClosed` | json/jsmn.h:277-282 | the final loop says whether any token is still open |
| `Jsmn.Parser.Parse` | json/jsmn.h:147-284 | the whole in-place tokeniser is the pure machine run to its end: same tokens, same count, same error |
| `JsmnFlatten.ParseFlattens` | json/jsmn.h:147-284 | every well-formed text, with any white space and any token budget: the array is the preorder flattening of the tree (sizes, spans, key size 1, count) if the tokens suffice, and NoMem if not |
| `JsmnFlatten.ScanRaw` | json/jsmn.h:103-139 | the string scan of any raw string body stops exactly at its closing quote |
| `JsmnSafety.ParseIsSafe` | json/jsmn.h:78-284 | for every byte string and budget: position, token count and parent stay in bounds; on success the count is the number of tokens, every span lies inside the text, strings are raw bodies between quotes and primitives printable characters, and spans are pairwise nested or disjoint |
| `JsmnSafety.StringTakenIff` | json/jsmn.h:103-139 | the string scan from a place stops at a place if and only if a quote stands there and all between is a raw body: no bare quote, every escape one of the eight or four hex digits |
| `JsmnSafety.PrimitiveTakenIff` | json/jsmn.h:78-101 | the primitive scan likewise: printable characters, none a delimiter, up to a delimiter, a NUL or the end |
| `JsmnAccepts.ParseJudged` | json/jsmn.h:147-284 | for every byte string and budget: accepted, or refused with that very error, as a recogniser with a stack of open brackets has it |
| `JsmnSafety.StepKeeps` | json/jsmn.h:154-275 | every step on arbitrary input keeps the forest of open and closed spans in order |
| `JsmnCounts.ParseRooted` | json/jsmn.h:147-284 | for every byte string and budget, no token is counted by itself or a later one: of the tokens from any place on, at least one is counted by none of them |
| `JsmnCounts.SkipExact` | json/json_builder.h:102-108 | so a walk over k subtrees by child counts ends inside the array exactly when there are k, and leaves that many fewer |
| `TokLookup.SkipValue` | json/json_builder.h:95-111 | following child counts from a value lands exactly past its subtree, whatever the tree |
| `TokLookup.SkipSubtree` | json/json_builder.h:102-108 | the skip loop ends inside the array, where the counts say, on every array the tokeniser can leave |
| `TokLookup.FindKey` | json/json_builder.h:95-111 | the lookup on every array the tokeniser can leave, well-formed or not: value index, none, or a read at or behind the count |
| `TokLookup.WalkFinds` | json/json_builder.h:95-111 | on the flattening of any object that is the index of the value of the first pair whose raw key matches, or none exactly when no pair matches |
| `TokLookup.LookupStaysIff` | json/json_builder.h:95-111 | on every array the tokeniser can leave, the lookup stays below the count if and only if each key it comes to fits: counted by sizes alone, itself and one subtree are still there |
| `TokLookup.AbsentStaysIff` | json/json_builder.h:95-111 | for an object with nothing behind it and at most one value to a key: looking for an absent key stays below the count if and only if every key has its value |
| `TokLookup.WalkEnds` | json/json_builder.h:95-111 | where a lookup ends on such an array: at a key that is not there to come to, at its own key, or trying to pass one that does not fit; its answer is below the count exactly when that key fits |
| `TokOwn.KeyOwnIff` | json/json_builder.h:95-111 | the k-th key a lookup comes to is one of the object's own children if and only if the sizes of the keys before it keep it in step: below the object's count, and further than ever before |
| `TokOwn.OwnValueIff` | json/json_builder.h:95-111 | what a lookup answers is the value of a key of that very object if and only if the key has a value and the lookup came to it in step |
| `TokOwn.OneEachInStep` | json/json_builder.h:95-111 | keys with one value each keep it in step |
| `TokOwn.StrayAnswers` | json/json_builder.h:95-111 | the text {"a":{"k"},"b":1}: accepted, and looking for k in the inner object stays below the count and answers the token of b |
| `TokLookup.KeyAloneOverruns` | cp/cp_session.c:339-366 | the text {"type"}: accepted with two tokens, and read behind them by the lookup and by the session thread |
| `TokLookup.OfferedVersions` | cp/cp_commands.c:437-446 | on every array the tokeniser can leave the version loop stays inside and accepts exactly when one of the counted children reads 1.0; release numbers likewise |
| `TokLookup.ChildrenAreElems` | cp/cp_commands.c:437-446 | on a well-formed array those children are its elements |
| `TokLookup.ReadEnvelope` | cp/cp_session.c:339-366 | what the session thread makes of any payload: malformed, a field missing, not a request, id and command, or a read past the tokens |
| `TokLookup.EnvelopeOnTree` | cp/cp_session.c:339-366 | for every well-formed payload that is what its tree says, id and command cut to their buffers, and never a read past the tokens |
| `TokLookup.TokStrTruncates` | json/json_builder.h:84-90 | tok_str gives the span's text, cut to the buffer |
| `ControlFrames.FindKinds` | json/json_builder.h:95-111 | a lookup runs off exactly when it comes to a key it cannot pass, answers a token that is not there exactly when its key is the last token, and answers none exactly when every key fits and none matches |
| `ControlFrames.EnvelopeOverrunsIff` | cp/cp_session.c:339-366 | whatever the payload, the session thread reads behind the tokens if and only if its lookup of type, id or command cannot pass a key, or type, or for a request id or command, is a key that is the last token |
| `ControlFrames.AddressOverrunsIff` | cp/cp_commands.c:144-207 | the same for what a handler looks up in order: params, function, direction, channel |
| `ControlFrames.CmdAddressesRx` | cp/cp_commands.c:597-608 | on the tokens of any payload: true for the stream-handle commands, for a setting command exactly when its handler finds that it addresses rx, false for all others |
| `ControlFrames.GateAgrees` | cp/cp_commands.c:163-608 | on every payload the gate holds back exactly the setting commands whose handler finds that they address rx |
| `ControlFrames.AddressOnTree` | cp/cp_commands.c:144-207 | on every well-formed frame whose params are no list the handlers find what its tree says |
| `ControlFrames.HasMeaning` | cp/cp_session.c:211-230 | every frame that is read inside its tokens asks for some request |
| `ControlFrames.GatesAgree` | cp/cp_session.c:368-393 | the hello-first rule and the gate, decided on the frame, are those of the request it means |
| `JsonEscape.EscapeRoundTrip` | cp/cp_commands.c:73-105 | both escapers are invertible on every string, and what they write is a valid string body |
| `JsonEscape.JsonEscapeInto` | cp/cp_commands.c:73-105 | the output is the escape of the longest prefix that fits, NUL-terminated, never half an escape |
| `JsonBuilder.Builder.constructor` | json/json_builder.c:46-54 | an empty builder over a caller's buffer |
| `JsonBuilder.Builder.Putc` | json/json_builder.c:18-23 | one character more of the logical output; in the buffer while it fits with its NUL, overflow for good after that |
| `JsonBuilder.Builder.Sep` | json/json_builder.c:34-40 | a comma exactly when the flag of this depth is set, and the flag of every depth up to 15 set afterwards |
| `JsonBuilder.Builder.Begin` | json/json_builder.c:56-62 | separator and opening bracket, one level deeper, with that level's flag cleared if it has one |
| `JsonBuilder.Builder.End` | json/json_builder.c:64-68 | closing bracket, one level up |
| `JsonBuilder.Builder.Str` | json/json_builder.c:84-104 | separator, then the quoted, escaped string |
| `JsonBuilder.Builder.Key` | json/json_builder.c:163-169 | separator, quoted key and colon, and no comma before the value |
| `JsonBuilder.Builder.Emit` | json/json_builder.c:18-169 | the calls for a document write exactly its text as the flags give it, and leave all outer flags alone |
| `JsonBuilder.CanonicalIff` | json/json_builder.c:34-62 | what is written is the canonical text if and only if no container whose members lie at depth 16 or deeper has two or more of them |
| `JsonBuilder.ShallowNotCrowded` | json/json_builder.c:34-62 | every document at most 15 deep meets that condition |
| `JsonBuilder.SixteenDeepLosesComma` | json/json_builder.c:34-62 | a document 16 deep whose text loses a comma |
| `JsonBuilder.Print` | json/json_builder.c:18-169 | into a buffer of any size: the whole text and a NUL when it fits, otherwise the overflow mark and a NUL-terminated prefix |
| `JsonRoundTrip.DecimalParses` | json/json_builder.c:115-134 | every integer is read back from its decimal text |
| `JsonRoundTrip.PrintParseRoundTrip` | json/json_builder.c:18-169 | printing, tokenising and reading the flat array gives the document back, for every document the printer renders faithfully and every sufficient budget |
| `JsonRoundTrip.PrintInjective` | json/json_builder.c:18-169 | two such documents with the same text are the same document |
| `Sha256.MakeSchedule` | common/auth.c:55-60 | the message schedule loop is the schedule of section 6.2.2 of FIPS 180-4 |
| `Sha256.MakeRounds` | common/auth.c:62-72 | the 64-round loop is the round function iterated |
| `Sha256.Hasher.constructor` | common/auth.c:79-88 | the empty message |
| `Sha256.Hasher.Block` | common/auth.c:52-77 | one block is folded into the hash state |
| `Sha256.Hasher.Update` | common/auth.c:90-106 | the state after any update stands for the message so far followed by the new bytes |
| `Sha256.Hasher.Final` | common/auth.c:108-126 | padding one byte at a time ends, and the digest is the hash of everything that was absorbed |
| `Sha256.HashOfPieces` | common/auth.c:90-126 | any split into updates gives the hash of the concatenation: pad the whole message (section 5.1.1 of FIPS 180-4), fold the blocks |
| `Sha256.HashOf` | common/auth.c:128-134 | the one-shot form |
| `Sha256Laws.ChChooses` | common/auth.c:67 | each bit of the first word chooses between the second's and the third's |
| `Sha256Laws.MajDecides` | common/auth.c:70 | where two words agree they are the majority, where they differ the third decides |
| `Sha256Laws.RotrMoves` | common/auth.c:50 | rotation by n moves every bit n places down, round the word |
| `Sha256Laws.BigSigmasMove` | common/auth.c:66-69 | where the two upper-case sigmas send each single bit |
| `Sha256Laws.SmallSigmasMove` | common/auth.c:59-60 | where the two lower-case sigmas send each single bit, and which fall out at the bottom |
| `Sha256Laws.WordReads` | common/auth.c:55-57 | the four bytes of a word read back in order |
| `Sha256Laws.LengthReads` | common/auth.c:115-117 | the eight bytes of the length field read back as the number |
| `Sha256Roots.InitialRoots` | common/auth.c:81-84 | the initial words are the first 32 bits behind the point of the square roots of 2 to 19, as inequalities on squares |
| `Sha256Roots.FirstRoots` | common/auth.c:37-38 | the round constants are the first 32 bits behind the point of cube roots, as inequalities on cubes: of 2 to 19 |
| `Sha256Roots.SecondRoots` | common/auth.c:38-39 | of 23 to 53 |
| `Sha256Roots.ThirdRoots` | common/auth.c:39-40 | of 59 to 89 |
| `Sha256Roots.FourthRoots` | common/auth.c:41-42 | of 97 to 131 |
| `Sha256Roots.FifthRoots` | common/auth.c:42-43 | of 137 to 173 |
| `Sha256Roots.SixthRoots` | common/auth.c:43-44 | of 179 to 223 |
| `Sha256Roots.SeventhRoots` | common/auth.c:45-46 | of 227 to 263 |
| `Sha256Roots.EighthRoots` | common/auth.c:46-47 | of 269 to 311 |
| `Sha256Example.HashOfAbc` | common/auth.c:52-134 | the hash of "abc" is the digest FIPS 180-4 publishes, round by round |
| `Auth.HmacSha256` | common/auth.c:137-164 | the two-hash definition in section 2 of RFC 2104, for every key length |
| `Auth.XorTurns` | common/auth.c:137-164 | a pad turns over exactly the bits of the key it has |
| `Auth.TrailingZeros` | common/auth.c:137-164 | zeros behind a key that fits a block make no difference to any MAC |
| `Auth.LongKey` | common/auth.c:137-164 | a longer key counts as its hash |
| `Auth.AuthHex` | common/auth.c:166-174 | lower-case hex of the bytes |
| `Auth.HexRoundTrip` | common/auth.c:166-182 | hex text decodes to the bytes it came from, for every byte string |
| `Auth.CtEqual` | common/auth.c:268-274 | true exactly on equal byte strings |
| `Auth.Verify` | common/auth.c:276-305 | accepts exactly when the response is 64 hex digits whose bytes are the MAC of the nonce under some configured key of that name |
| `Auth.HonestClientAccepted` | common/auth.c:276-305 | the hex of the MAC under any configured key is accepted |
| `AuthMachine.AttemptKeeps` | cp/cp_commands.c:502-580 | one attempt keeps the window's count and log in step, and ends the connection exactly on the tenth failure of a window |
| `AuthMachine.NineteenAMinute` | cp/cp_commands.c:502-536 | any 60 seconds of one connection hold at most 19 failed attempts |
| `VitaPacket.FractionExactIff` | vita/vita_tx.c:342-380 | the 64-bit fraction product is exact at every packet the sender can make (sample counts are multiples of 256) if and only if the rate less its greatest common divisor with 256 is at most 18446744 |
| `VitaPacket.FractionFails` | vita/vita_tx.c:350-355 | the packet that shows it, at 18446747 samples per second: the product overflows and the fraction is 104424 picoseconds instead of 999999945789 |
| `VitaPacket.StampExact` | vita/vita_tx.c:342-380 | at every rate of that kind and every packet, stamp minus epoch is exactly the floor of samples times 10^12 over rate, and the fraction is below 10^12, while the seconds field does not wrap |
| `VitaPacket.StampSpacing` | vita/vita_tx.c:342-380 | exact times j packets apart are within one picosecond of j packets' time, and grow |
| `VitaSender.SentSpacing` | vita/vita_tx.c:342-380 | the stamps of any two IF Data packets of a sequence lie apart what the samples between them take, to less than a picosecond, and the later packet has the later stamp |
| `VitaSender.SentWrong` | vita/vita_tx.c:342-380 | in a sequence at 18446747 samples per second the packet of FractionFails is stamped wrongly |
| `VitaPacket.ReferenceLevelNearest` | vita/vita_tx.c:171-177 | the encoded level is within half a step of the level, over the whole range of the field |
| `VitaPacket.RefWordInjective` | vita/vita_tx.c:171-177 | two gains have the same Reference Level word only if they are equal |
| `VitaPacket.LevelTold` | rtl/rtl_bridge.h:131-133 | the level a receiver reads from the word is ten dBm below zero less the gain, to half a step |
| `VitaPacket.LevelFalls` | rtl/rtl_bridge.h:131-133 | more gain, a lower level |
| `VitaPacket.DecodeEncode` | vita/vita_tx.c:99-199 | a receiver that lays a datagram out as its VITA-49.0 header says (type, class id, time-stamp kinds, context field bits) reads any built packet back: kind, id, count modulo 16, stamps, change bit, words and payload; the size field is bytes over 4 |
| `VitaPacket.BuildIfDataPacket` | vita/vita_tx.c:99-150 | the bytes written are the encoding of the IF Data packet, padded to whole words |
| `VitaPacket.BuildContextPacket` | vita/vita_tx.c:179-199 | the bytes written are the encoding of the Context packet |
| `VitaSender.ContextKeeps` | vita/vita_tx.c:222-258 | a Context packet keeps the slot's log in order (own count, change bit exactly on the first or a changed word) and brings its receiver up to date |
| `VitaSender.PacketsKeep` | vita/vita_tx.c:295-410 | a buffer's packets keep the log in order, carry exact stamps, and add exactly the buffer's whole packets to the payload |
| `VitaSender.NewSlotKeeps` | vita/vita_tx.c:415-465 | a slot put to use starts in order, with its receiver up to date |
| `VitaSender.FirstIsContext` | vita/vita_tx.c:446-452 | with Context packets on, each sequence begins with one, marked changed |
| `VitaSender.DataAt` | vita/vita_tx.c:295-410 | the n-th IF Data packet has count n modulo 16 and the stamp of sample 256 n; with Context packets on, the latest one before it tells the gain and format of that moment |
| `VitaSender.LogEncodable` | vita/vita_tx.c:99-199 | every packet of a disciplined log has a byte layout |
| `VitaSender.HeardIsSent` | vita/vita_tx.c:99-150 | what a receiver decodes from the bytes of a log is the payload the log says was sent |
| `VitaSender.LevelAt` | vita/vita_tx.c:222-258 | with Context packets on, the receiver of all datagrams before an IF Data packet knows from the latest Context packet the level of the gain its samples were taken with, and the format |
| `VitaSender.SendContextLocked` | vita/vita_tx.c:222-258 | the slot's next state, and the bytes built for exactly the packet it logged |
| `VitaSender.SendTo` | vita/vita_tx.c:348-380 | the build loop: the slot's next state, and the bytes built for exactly the packets it logged |
| `VitaSender.VitaTx.constructor` | vita/vita_tx.c:487-531 | every slot free |
| `VitaSender.VitaTx.SessionAdd` | vita/vita_tx.c:415-465 | the loop takes the first free slot and hands out the bytes of its Context packet, or answers -1 when all are taken |
| `VitaSender.VitaTx.SessionRemove` | vita/vita_tx.c:477-482 | one slot is cleared; a bad token does nothing |
| `VitaSender.VitaTx.UpdatePayloadFormat` | vita/vita_tx.c:469-475 | the format of every slot in use |
| `VitaSender.VitaTx.SendContextAll` | vita/vita_tx.c:270-276 | a Context packet on every slot in use, as bytes for the socket |
| `VitaSender.VitaTx.SendCallback` | vita/vita_tx.c:295-410 | the nested loops send every slot in use the buffer's whole packets, at most 1024; the bytes handed to the socket are the encodings of exactly the packets logged |
| `Radio.RtlBridge.constructor` | rtl/rtl_bridge.c:217-243 | the state after initialisation, given what the hardware reported: within the published limits exactly when the tuner settled in band at some rate |
| `Radio.RtlBridge.BridgeStart` | rtl/rtl_bridge.c:285-309 | the reference count and the reader thread, with a failed thread taken back |
| `Radio.RtlBridge.BridgeStop` | rtl/rtl_bridge.c:311-328 | the count never goes below zero and the last stream stops the reader |
| `Radio.StartStop` | rtl/rtl_bridge.c:285-328 | a start that worked and the stop after it leave the radio as it was; a start that failed changes nothing; the reader runs exactly while the count is positive |
| `ControlDaemon.Daemon.constructor` | cp/cp_session.c:235-256 | a daemon just started is an initial state of the machine, within the published limits exactly when the bridge is |
| `ControlDaemon.Daemon.Event` | cp/cp_session.c:142-158 | the loop sends the event to exactly the connections past hello other than the skipped one, once each |
| `ControlDaemon.Daemon.RxClaim` | cp/cp_session.c:89-101 | claims exactly when rx is free or already this connection's |
| `ControlDaemon.Daemon.RxRelease` | cp/cp_session.c:103-115 | rx is freed if it was this connection's, and only then the others are told |
| `ControlDaemon.Daemon.SessionCreate` | cp/cp_session.c:235-256 | the loop takes the first free record, or turns the connection away when none is |
| `ControlDaemon.Daemon.SessionDestroy` | cp/cp_session.c:258-305 | slot, count, rx, bias tee and record, in the source's order, give the machine's disconnect |
| `ControlDaemon.Daemon.Hello` | cp/cp_commands.c:420-499 | hello's effect on the record and its challenge, exactly the machine's |
| `ControlDaemon.Daemon.Authenticate` | cp/cp_commands.c:505-590 | authenticate is the machine's step, with the MAC really computed |
| `ControlDaemon.Judge` | cp/cp_commands.c:530-586 | passes exactly when challenge, method, key and MAC are right; the record it returns is the authentication machine's |
| `ControlDaemon.Daemon.SetFrequency` | cp/cp_commands.c:738-783 | every branch and reply of the machine's set_frequency |
| `ControlDaemon.Daemon.SetSampleRate` | cp/cp_commands.c:786-836 | every branch and reply of the machine's set_sample_rate |
| `ControlDaemon.Daemon.ApplyModeChange` | cp/cp_commands.c:845-883 | frequency, rate, formats and Context packets after a mode change, in the machine's order |
| `ControlDaemon.Daemon.SetControl` | cp/cp_commands.c:886-1107 | address and ownership checks, then the control |
| `ControlDaemon.Daemon.SetGain` | cp/cp_commands.c:909-956 | rf_gain: ignored under AGC, refused off the list, otherwise applied, put in a Context packet and announced |
| `ControlDaemon.Daemon.SetAgc` | cp/cp_commands.c:958-980 | agc: applied, put in a Context packet and announced |
| `ControlDaemon.Daemon.SetBias` | cp/cp_commands.c:982-1015 | bias_tee: 0 or 5 volts only, refused by hardware without it |
| `ControlDaemon.Daemon.SetPpm` | cp/cp_commands.c:1017-1038 | ppm_correction: range checked; what is in force afterwards is announced |
| `ControlDaemon.Daemon.DirectSampling` | cp/cp_commands.c:1040-1100 | direct_sampling: no-op, refusal with a stream open, device error, or the change with its side effects |
| `ControlDaemon.Daemon.GetControl` | cp/cp_commands.c:1110-1151 | address and name checks, then the value of the control that is in force |
| `ControlDaemon.Daemon.OpenStream` | cp/cp_commands.c:1158-1366 | claim, release on failure, next id and announcement, exactly the machine's |
| `ControlDaemon.Daemon.StartRx` | cp/cp_commands.c:1369-1422 | slot, reader and roll-back, exactly the machine's; the first Context packet leaves even when the reader then does not start |
| `ControlDaemon.Daemon.StopRx` | cp/cp_commands.c:1425-1461 | slot and reader given back, exactly the machine's |
| `ControlDaemon.Daemon.CloseStream` | cp/cp_commands.c:1464-1509 | slot, reader, stream and rx given back, exactly the machine's |
| `ControlDaemon.Daemon.Run` | cp/cp_session.c:395-406 | dispatch to the handler of the command; the datagrams that leave meanwhile are the encodings of exactly the packets logged |
| `ControlDaemon.Daemon.Turn` | cp/cp_session.c:322-416 | one turn of the session thread's loop is one step of the machine: hello-first rule, authentication gate, handler, end of the connection; its datagrams are those of the packets logged |
| `ControlDaemon.Daemon.Receive` | cp/cp_session.c:322-416 | the same turn from the bytes of the frame: both rules decided on its tokens, and the machine's step for the request it means |
| `ControlDaemon.Daemon.UsbBuffer` | rtl/rtl_bridge.c:181-196 | a USB buffer is one step of the machine, and the datagrams it gives are the encodings of the packets logged |
| `ControlDaemon.Daemon.Take` | cp/cp_session.c:310-418 | an event that can happen is one step of the machine with its datagrams, and happens exactly when it can |
| `ControlDaemon.Daemon.Serve` | cp/cp_session.c:310-418 | the daemon object, given any sequence of events from start-up, goes through a run of the machine and sends its datagrams; its state keeps the weak invariant, and the strong one in an orderly run |
| `ControlInvariants.StepKeeps` | cp/cp_commands.c:420-1509 | every connect, command, USB buffer and disconnect keeps the weak invariant, and the strong one unless it is a hello that succeeds on a connection with an open stream |
| `ControlInvariants.StrongKeptIff` | cp/cp_commands.c:420-499 | from a state in order, a step leaves it in order if and only if it is not such a hello |
| `ControlInvariants.AlwaysWeak` | cp/cp_session.c:89-305 | every reachable state, whatever clients send: owner, owns_rx and stream_open agree, held tokens name active slots of the same stream, the reader runs exactly while the count is positive |
| `ControlInvariants.AlwaysStrong` | cp/cp_session.c:89-305 | every state reached without such a hello is in order |
| `ControlInvariants.OneHelloEach` | cp/cp_commands.c:461 | every run in which a hello succeeds only once per connection is such a run |
| `ControlInvariants.StrongMeans` | cp/cp_commands.c:1158-1509 | what that says: owner = owns_rx = stream_open = state open or streaming; streaming = a held, active slot; active slots = held tokens; the count is the number of streaming connections, at most one |
| `ControlLaws.StartRxOutcome` | cp/cp_commands.c:1369-1422 | start_rx never runs out of slots: it streams, or answers device_error with everything as before |
| `ControlLaws.StartStopUndo` | cp/cp_commands.c:1369-1461 | stop_rx undoes start_rx |
| `ControlLaws.OpenCloseUndo` | cp/cp_commands.c:1158-1509 | close_stream undoes open_stream, with or without a start_rx in between |
| `ControlLaws.ModeChangeFindsNoStream` | cp/cp_commands.c:1056-1100 | a direct_sampling change that is carried out finds no owner, no active slot and the reader stopped |
| `ControlLaws.DisconnectFrees` | cp/cp_session.c:258-305 | the owner's disconnect frees rx, every slot and the reader; any other disconnect leaves them alone |
| `ControlLaws.HelloLeaks` | cp/cp_commands.c:461 | hello, start_rx and close_stream on a streaming connection leave the reader running and a slot in use that no connection holds |
| `ControlLaws.StreamingRun` | cp/cp_commands.c:420-1422 | a run that reaches a streaming connection |
| `ControlLaws.LeakRun` | cp/cp_commands.c:461 | a whole run from start-up that ends in that state |
| `ControlStreams.AlwaysHonoured` | cp/cp_commands.c:1349-1351 | over every run without such a hello, the rate and sampling mode an open stream's client was told are the radio's, and its id is the newest |
| `ControlStreams.StepHonours` | cp/cp_commands.c:791-1091 | no step of any connection changes rate or mode under an open stream |
| `ControlStreams.CounterCounts` | cp/cp_session.c:43-49 | the id counter counts the streams opened, modulo 2^32 |
| `ControlStreams.StaleIdRefused` | cp/cp_session.c:43-49 | an id given out earlier names no later stream until the counter comes round |
| `ControlEvents.StepMirror` | cp/cp_commands.c:738-1509 | every step keeps every client that replays its events right about frequency, achieved rate, gain, AGC, ppm and mode, and about who may claim rx from the last control_revoked |
| `ControlEvents.AlwaysMirror` | cp/cp_commands.c:738-1509 | over every run, with no further hypothesis |
| `ControlEvents.StepAsks` | cp/cp_commands.c:786-883 | every step: a connection told the requested rate is told the right one, any other keeps what it was told, and the request changes unannounced exactly by a refused rate |
| `ControlEvents.ExactKeptIff` | cp/cp_commands.c:786-883 | from a state where all clients are right in everything, a step leaves them so if and only if it is not a refused sample rate that some client was told another value of |
| `ControlEvents.Recovers` | cp/cp_commands.c:633-705 | whatever went wrong before, a status or an announced rate puts a client right |
| `ControlEvents.AskedThen` | cp/cp_commands.c:786-883 | over every run, what a client was last told of the requested rate is what was requested then |
| `ControlEvents.ClientKnows` | cp/cp_session.c:124-158 | over every run: all settings but the requested rate and the right to rx always; the requested rate as of the client's last news of it, so rightly when no rate was refused since |
| `ControlEvents.NothingNew` | cp/cp_commands.c:1110-1151 | over every run, get_control tells a client that follows the events nothing it does not know, but the bias tee |
| `ControlEvents.RefusedRateRun` | rtl/rtl_bridge.c:354-372 | a run in which a refused rate leaves a client with the wrong requested rate until it asks again |
| `ControlReplies.AnswersFairly` | cp/cp_commands.c:163-1509 | for every command in every state: an answer exactly if it is a request; acceptance if and only if the conditions of the command hold, said in no order; and in every refusal a code whose reason is true |
| `ControlOwner.BystanderHandles` | cp/cp_commands.c:209-216 | while another client holds rx, no command changes the radio, the slots, the owner, the ids, or what any other client has or is told |
| `ControlOwner.BystanderChangesNothing` | cp/cp_commands.c:209-216 | the same of a whole step, if and only if it does not end the connection while the bias tee is on and falls with it; and then only that changes |
| `ControlOwner.BystanderRuns` | cp/cp_commands.c:209-216 | over every run |
| `ControlOwner.RefusalHarmless` | cp/cp_commands.c:163-1509 | a refused command leaves owner, slots in use, ids, stream and radio as they were; only a sample rate the device refused stays requested |
| `ControlOwner.SetThenGet` | cp/cp_commands.c:886-1151 | after an accepted set_control every client reads of that control the value asked for (of rf_gain what the hardware applied, of ppm_correction the old one if the hardware did not take it) and of every other control what it read before |
| `ControlOwner.SetThenGetSteps` | cp/cp_commands.c:886-1151 | the same as two steps of any two connections |
| `ControlOwner.SetThenStatus` | cp/cp_commands.c:738-836 | after an accepted set_frequency or set_sample_rate the status tells what was applied, and all else as before |
| `ControlNews.SetAnnounced` | cp/cp_commands.c:886-1107 | every client past hello hears of every accepted set_control that does something (not a gain under AGC, nor the mode in force) what it put in force, and of a change of mode that the capabilities changed |
| `ControlNews.StreamTold` | cp/cp_commands.c:1369-1461 | a start tells its client that the stream is on, a stop of a running one that it is off, and nobody else anything |
| `ControlNews.CloseTold` | cp/cp_commands.c:1464-1509 | a close tells its client that it is done and, of a running stream, that it is off; the others hear that rx is free |
| `ControlNews.LeaveTold` | cp/cp_session.c:258-305 | the others hear of a client that leaves that its running stream is off, and then that rx is free if it held it |
| `ControlEvents.OpenMirror` | cp/cp_commands.c:1173-1288 | a failed open_stream, which claims and releases, misleads nobody |
| `ControlEvents.DestroyMirror` | cp/cp_session.c:258-305 | nor does the owner's disconnect |
| `ControlWire.StepSends` | vita/vita_tx.c:222-482 | every step keeps every slot's packet discipline and every receiver up to date with gain and format; a USB step adds the buffer's whole packets to each slot in use, any other step no sample byte |
| `ControlWire.AlwaysWire` | vita/vita_tx.c:222-482 | in every reachable state |
| `ControlWire.PayloadConserved` | vita/vita_tx.c:295-410 | while a slot stays in use its payloads grow by exactly the bytes delivered, in order, once each |
| `ControlWire.AlwaysEncodable` | vita/vita_tx.c:99-199 | over every run every logged packet of a slot in use has a byte layout |
| `ControlWire.ReceiverGets` | vita/vita_tx.c:295-410 | over every run, what a receiver decodes from the datagrams of a slot in use is exactly the sample bytes delivered meanwhile |
| `ControlWire.ReceiverKnows` | vita/vita_tx.c:222-258 | over every run, with Context packets on: the receiver of a slot in use knows the level of the gain in force to half a step, and that samples are unsigned bytes, complex exactly in normal sampling |
| `ControlWire.FormatMeans` | config.h:178-182 | the fields of the payload format word of each sampling mode |
| `ControlWire.WholeDrops` | vita/vita_tx.c:295-340 | what is dropped of a buffer is less than a packet, and of too long a one what is behind 1024 packets |
| `ControlWire.StampsKeepTime` | vita/vita_tx.c:342-380 | over every run, stamps without drift: any two IF Data packets a slot in use has sent |
| `ControlWire.OfferedRatesExact` | config.h:117-125 | every rate the daemon offers is one at which the stamps are exact |
| `ControlDatagrams.StepEmits` | vita/vita_tx.c:222-482 | whatever the step, the datagrams that leave for a slot in use before and after it are the encodings of exactly the packets it logged |
| `ControlDatagrams.SentIsDelivered` | vita/vita_tx.c:295-410 | over every run, a receiver of the very datagrams the daemon sent for a slot while it stays in use decodes exactly the sample bytes the radio delivered |
| `ControlWire.WholeIff` | vita/vita_tx.c:295-340 | nothing of a buffer is dropped exactly when it is a multiple of 512 bytes and at most 1024 packets |
| `ControlWire.FreshSlotEmpty` | vita/vita_tx.c:415-465 | a slot put to use has the stream's id, the radio's rate and format, the time of the start, and has sent no sample yet |
| `ControlAuth.LockedChangesNothing` | cp/cp_session.c:376-416 | with authentication on, a step of a locked connection changes nothing of owner, slots, radio, ids or what another connection has or sees, if and only if it does not end the connection while the bias tee is on, not kept, and switched off by the device; and in no case anything else |
| `ControlAuth.LockedRuns` | cp/cp_session.c:376-416 | the same for every step of a locked connection in every run |
| `ControlAuth.ClosesIff` | cp/cp_commands.c:536-580 | a command ends its connection exactly when it is a failing authenticate with nine failures already counted in the window it falls in |
| `ControlAuthRuns.BiasRun` | cp/cp_session.c:289-292 | a run: a client with a key switches the bias tee on, another connects and leaves without a word, and it is off |
| `ControlAuthRuns.NineteenRun` | cp/cp_commands.c:502-580 | a run that reaches nineteen failures in a minute; the last one ends the connection and takes a bias tee that was on with it |
| `ControlAuth.AlwaysGate` | cp/cp_session.c:376-393 | in every reachable state an open stream belongs to an unlocked connection |
| `ControlAuth.UnlockStep` | cp/cp_commands.c:505-590 | a step unlocks a connection only by a right answer, and never locks one that stays connected |
| `ControlAuth.UnlockEarned` | cp/cp_commands.c:505-590 | an unlocked connection answered rightly at some earlier step and has been connected ever since |
| `ControlAuth.StreamNeedsKey` | cp/cp_commands.c:505-608 | so whoever has a stream proved, on this connection, that it holds a key |
| `ControlAuth.AlwaysSingleUse` | cp/cp_commands.c:547-586 | if the random source repeats no nonce, no nonce is judged twice on any connection, and challenges in force are distinct, issued and unused |
| `ControlAuth.GuessesBounded` | cp/cp_commands.c:502-580 | over every run with a monotone clock, any minute of any connection holds at most 19 failed attempts, the one that ends it included; the tenth failure of a window and nothing else in a command frees the record |
| `ControlLimits.LimitsKeptIff` | rtl/rtl_bridge.c:436-479 | frequency in the mode's band, requested rate on the mode's list, rate positive: kept by a step if and only if the tuner does not settle outside the band |
| `ControlLimits.AlwaysWithinLimits` | cp/cp_commands.c:760-883 | so over every run from start-up with a tuner that settled in band at some rate and stays in band |
| `MdnsBuilder.Dns.Put8` | common/mdns_builtin.c:104-108 | one byte more while there is room; overflow otherwise |
| `MdnsBuilder.Dns.Name` | common/mdns_builtin.c:113-127 | the loop writes the labels of a dotted name, and answers where |
| `MdnsBuilder.Dns.PatchRdlen` | common/mdns_builtin.c:131-136 | the two length bytes become the number of bytes written since; both lie in the buffer exactly when the length field does |
| `MdnsBuilder.Dns.Rr` | common/mdns_builtin.c:140-151 | owner name or pointer, type, class, TTL and an empty length |
| `MdnsBuilder.BuildAnswer` | common/mdns_builtin.c:156-214 | the records of the subset, in order, with their names compressed, and how many; every length is patched inside the buffer exactly when the last record's is |
| `MdnsBuilder.SendRecords` | common/mdns_builtin.c:156-231 | the datagram sent is the response, and nothing is sent if it exceeds the buffer; every write lands in the buffer if and only if the response without its last record's data fits it |
| `MdnsAdvert.NameReadsIff` | common/mdns_builtin.c:113-127 | a dotted instance name under the service or the local domain is read back as given if and only if neither end is a dot and no two dots meet; at an empty label the reader takes the name to end |
| `MdnsAdvert.Started` | common/mdns_builtin.c:326-343 | the responder's state for any name of at most 63 bytes and what is advertised: its name under the service is the one given, and it is legible exactly when no label is empty |
| `MdnsAdvert.TxtBytes` | common/mdns_builtin.c:333-343 | the eight strings, cut to 159 bytes, take exactly the length counted from what is advertised, at most 1014 bytes |
| `MdnsAdvert.ResponseLength` | common/mdns_builtin.c:156-214 | the length of every answer, from the name's length and that of the TXT data |
| `MdnsAdvert.AnnouncementFits` | common/mdns_builtin.c:131-231 | the full announcement is sent if and only if twice the name and the TXT data come to at most 905 bytes, and written inside the buffer if and only if to at most 909 |
| `MdnsAdvert.LongTextStrays` | common/mdns_builtin.c:131-343 | six advertised texts too long for their strings, under any name: nothing is sent, and a length is written past the buffer |
| `MdnsAdvert.DaemonFits` | main.c:405-414 | with what this daemon advertises, under any name of at most 63 bytes, every answer has at most 419 bytes: it is sent, and no write strays |
| `MdnsTxt.BrowserReads` | common/mdns_builtin.c:333-343 | a browser that looks a key up in the TXT strings finds what is advertised under it, cut to the room of its string |
| `MdnsTxt.DaemonReads` | main.c:405-414 | of this daemon it reads the name, and as minhz and maxhz the limits of the sampling mode |
| `MdnsResponse.ResponseReadsBack` | common/mdns_builtin.c:156-214 | walking the response with the daemon's own name reader gives exactly the intended owners, types, classes, TTLs and data, for every subset; ancount is their number |
| `MdnsResponse.HeaderKept` | common/mdns_builtin.c:216-224 | the header: no id, an authoritative response without an error, no question, all records in the answer section |
| `MdnsResponse.OwnerReads` | common/mdns_builtin.c:140-151 | an owner name reads back whether spelled or compressed, and a pointer goes backward (section 4.1.4 of RFC 1035) |
| `MdnsResponse.AppendRecord` | common/mdns_builtin.c:131-151 | a record appended after others leaves their reading unchanged and is itself read with its exact length |
| `MdnsCodec.ReadFull` | common/mdns_builtin.c:237-264 | the reader gives back any spelled name that fits its buffer |
| `MdnsCodec.ReadPointer` | common/mdns_builtin.c:237-264 | and any name behind a pointer, resuming after the pointer |
| `MdnsCodec.ReadNameExtends` | common/mdns_builtin.c:237-264 | bytes added later never change what was read |
| `MdnsCodec.ReadSpelled` | common/mdns_builtin.c:237-264 | any name spelled with labels and pointers, however they follow each other, reads as its labels, resuming behind its root or its first pointer |
| `MdnsQuery.DnsReadName` | common/mdns_builtin.c:237-264 | the loop, with its guard against pointer cycles, is the recursive reader on every byte string, and a name it reads leaves room for its NUL |
| `MdnsQuery.RecordsForQuery` | common/mdns_builtin.c:267-299 | the loop over questions collects what each asks for and stops at the first unreadable one |
| `MdnsQuery.QueryAnswered` | common/mdns_builtin.c:267-299 | a query with any questions, their names in full or compressed, is answered with exactly the records they ask for |
| `MdnsQuery.AnswersUnasked` | common/mdns_builtin.c:267-270 | no answer is taken for a query |
| `MdnsChoice.ChosenIffDue` | common/mdns_builtin.c:267-299 | for every question and record: the record is chosen if and only if the question names its owner and its type or any, or browses for the service or for services, or names the service location and the record is the address beside it |
| `MdnsChoice.NothingForOthers` | common/mdns_builtin.c:267-299 | nothing is chosen for a name that is neither the service, the instance, the host nor the one that lists services |
| `MdnsChoice.QueryGetsDue` | common/mdns_builtin.c:156-299 | from the bytes of a query to those of the answer: reading it back gives, of all the daemon's records, exactly those some question asks for |
| `MdnsChoice.SameLetter` | common/mdns_builtin.c:267-299 | names match byte by byte, letters in either case |

## Left out

- Sockets, threads, locks, librtlsdr, getrandom and the clocks: their answers are inputs of a step.
- Interleavings finer than one connect, command, buffer or disconnect: a step is atomic in the model, although the code takes several locks within one and shares one receive buffer between session threads.
- The literal JSON of responses and events, and the parameter parsing of each command: requests and messages are datatypes, with missing, mistyped and out-of-range parameters as values; only the envelope and what a command addresses are read from text.
- The causes of a failed hello or open_stream are one error code each; the stream's destination address and port are not modelled.
- What a read at or behind the token count finds there (stale tokens of an earlier frame): the model only says that it happens.
- The JSMN_STRICT and JSMN_PARENT_LINKS variants, which the build does not compile, and the counting mode without a token array.
- The 32-bit widths of token positions and sizes: texts are shorter than that.
- jb_f32, jb_raw, jb_strn and a NULL string: floating-point formatting and unchecked text.
- JsonBuilder.Print: documents at most 31 deep, because the source shifts a 32-bit value by the depth, which is undefined beyond that.
- The int16 sample path, the ADC level and its overload event: never negotiated, or floating point.
- VitaPacket.RefWordInjective: gains within 240 dB of zero, beyond which the 9.7 fixed-point field wraps.
- VitaPacket.LevelTold: the same range of gains, as in VitaPacket.LevelFalls and in what VitaSender.LevelAt and ControlWire.ReceiverKnows say of the level.
- VitaPacket.StampExact: the 64-bit sample counter itself does not wrap in the model; at 2.4 million samples per second that takes 240 thousand years.
- ControlEvents.ClientKnows: says nothing of bias_tee, which a disconnect clears without an event (cp/cp_session.c:289-292).
- MdnsBuilder.Dns.PatchRdlen: the source writes both bytes unchecked, one or two of them past its 1024-byte buffer when the length field begins at byte 1023 or behind; the model reports that and leaves the write out, so what it overwrites is not modelled.
- Packets the socket drops or takes only in part: the log is what was handed to it.
- MdnsResponse.ResponseReadsBack: TXT strings below 160 bytes and at most eight of them, as the daemon builds them; a name without empty labels, since with one the name does not read back (MdnsAdvert.NameReadsIff).
- ControlFrames.AddressOnTree: params that are a list, whose elements the lookup would take for keys and values in turn.
- Keyring files, keygen, the Avahi backend, interface address lookup, the sample ring buffer, logging and main.
