# A verified model of the Core NATS library

The library under `lib/` speaks the NATS client protocol without doing any input or output of its own. This project
models its four parts and proves what they promise, over every input, every cutting of the byte stream and every run.

- **Names, headers and numbers** (`Subject`, `Header`, `Decimal`, `Text`): the validating loops accept exactly their
  grammar, and report the first offender when they refuse.
- **Framing** (`Packet`, `Reader`, `Framing`, `Acceptance`): `Packet.read` over a reader of non-empty slices with
  push-back. It conserves every byte, and its result depends on how the bytes are cut in one exactly described case
  only.
- **Codec** (`Codec`, `HeaderBlock`, `RoundTrip`, `Stream`, `Wording`, `Decoding`): the twelve operations, printed and
  parsed. Any list of encodable operations, concatenated and cut anywhere, is read back as it was.
- **Endpoints and the pool** (`Endpoint`, `Urls`, `Pool`, `Scheduling`): parsing undone by printing, and a dial order
  with set invariants and fair rotation.
- **The client** (`Client`, `Invariant`, `Shape`, `Conduct`, `Wire`, `History`, `Barriers`, `Clock`): the immutable
  state record and its commands, operations, timer and reconnects, with theorems over whole runs.
- **The client against a server** (`Server`, `Network`, `Feeding`, `Drains`, `Arrivals`, `Survival`, `Starvation`):
  the client, two first-in first-out links and an abstract server that obeys the SUB, UNSUB, PING and PONG sections of
  the NATS client protocol reference. The link to the server carries what decoding the client's actual output lines
  gives. Either side may move at any time and a reconnect may come anywhere.

Where the source loops over mutable variables or consumes a reader, the model has a method with a loop, proved equal
to a function; the theorems are about that function. Where the source is pure, the model is a function.

## Reading the main results

- *Cutting and retrying*: `Framing.CuttingMattersExactly` and `Framing.RetryExactly`. A bare CR or LF in a control line
  is refused only when a slice boundary shows it before the line ends, so the contract of `lib/packet.mli` ("the same
  reader, more bytes") needs a hypothesis. Both lemmas give it, as an if and only if with the same condition;
  `RevealingCut` builds the offending cutting for every stream that fails it, and `BareReturn` is one such stream.
- *What each operation does*: `Conduct` and `Clock` for the client, `Acceptance` for a read, `Decoding` and `Wording` for
  the codec, `Urls` and `Scheduling` for endpoints, state every outcome and every refusal without the functions that
  compute them. On top of these, `Conduct.ReconnectCycle` follows a reconnect up to what the new server holds.
- *Streams*: `Stream.StreamRoundTrip`. The line bound plus two is added in machine arithmetic and wraps for bounds
  within two of `max_int`; the round trip holds exactly when it does not.
- *Limits*: `History.AtMostInTotal` bounds deliveries from above over all sessions, `Feeding.NeverStarved` bounds the
  server's allowance from below. A live UNSUB carries the absolute maximum and a replayed one the remainder; both
  directions are needed to see that this agrees. `NeverStarved` asks that a limit is not raised within a session:
  `Feeding.RaisedExactly` says when any limit leaves enough, and `Starvation.StarvedRun` is a run in which raising one
  does not.
- *Survival*: `History.EndedExactly` lists what ends a subscription, `History.LivesExactly` says that nothing else does.
- *Drains*: `Survival.OwnDrainLosesNothing` speaks of what the caller does: a drained subscription that is not
  unsubscribed, limited or forgotten lives to the PONG of that very drain, and by then everything the server sent on it
  has been delivered. `Drains.NothingLost` is the same for any subscription found live at such a PONG, limited or not.
  `Arrivals.DrainCompletes` says that no run leaves the PONG out of reach: the server has only to process what it has
  heard, and the client to receive what it was sent. `Drains.DrainedForGood` says that a connection drain is the end of
  its session.
- *Dead peers*: `Clock.DeadPeerAfterRun`, on top of `Barriers.DeadPeerClosed`. The liveness deadline is dropped for good
  when the clock cannot express it, and then a silent peer is never given up.

Three places where the code and its documentation disagree; the model follows the code.

- `lib/client.mli:78-80` says a flush barrier recorded before the connection is up is sent by a later connect. The
  code sends its PING at once in every phase but the closed one (`lib/client.ml:651-667`).
- `lib/endpoint.mli:80-81` says a preferred endpoint that is in neither set is removed after it fails. The discovered
  set always keeps the preferred endpoint, so it is moved to the end (`Pool.FailedExact`).
- `lib/packet.mli:40-47` promises that an incomplete packet can be retried. That is one read of everything exactly for
  the streams that meet `CuttingHidden` (`Framing.RetryExactly`), and it fails on `PUB a\rb 0` (`Framing.BareReturn`).

## Model

| member | source | states |
|---|---|---|
| Decimal.ParseNonnegative | lib/codec.ml:69-85 | the overflow-guarded digit loop gives the value of a non-empty decimal string when it is at most `max_int`, and nothing for any other string |
| Decimal.ParsePrint | lib/packet.ml:106-122 | parsing a printed number gives it back exactly when it is a machine integer |
| Decimal.PrintIntExactly | lib/codec.ml:486-565 | an integer prints as its decimal digits, behind a minus sign when it is negative |
| Decimal.MachineIntLength | lib/packet.ml:106-122 | a machine integer prints in at most 19 digits |
| Text.FindCrlfFrom | lib/codec.ml:129-140 | the loop finds the first CRLF at or after a position, or that there is none |
| Text.ContainsLineBreak | lib/codec.ml:57-67 | the loop decides whether a CR or LF occurs |
| Text.ContainsInternalLineBreak | lib/packet.ml:81-96 | the loop decides whether a CR or LF other than a final CR occurs |
| Text.SplitJoin | lib/packet.ml:103-103 | splitting at a separator undoes joining words without it |
| Text.JoinSplit | lib/packet.ml:103-103 | joining undoes splitting |
| Text.LowercaseExactly | lib/header.ml:92-92 | each capital letter becomes the small one and every other character stays |
| Subject.ValidateToken | lib/subject.ml:32-57 | the inner loop reports the first offending character of a token, and an empty token |
| Subject.ValidateSubject | lib/subject.ml:59-80 | the nested loops give the verdict of the dot-split grammar and its first error, with the absolute position |
| Subject.ValidateExact | lib/subject.ml:59-80 | a string is accepted if and only if every token is non-empty and free of control characters, spaces and misplaced wildcards, and is returned unchanged |
| Subject.TokenExactly | lib/subject.ml:28-57 | a token is made of printable characters other than spaces; a wildcard is a token by itself, only in a filter, and `>` only the last |
| Subject.SubjectsAmongFilters | lib/subject.ml:94-98 | the subjects are exactly the filters without wildcard characters |
| Header.ValidateName | lib/header.ml:26-38 | the loop reports an empty name and the first offending character |
| Header.ValidateValue | lib/header.ml:40-50 | the loop reports the first offending character |
| Header.OfListExact | lib/header.ml:60-77 | a list is accepted if and only if each entry is good; then order and repeats are kept; otherwise the error is that of the first bad entry |
| Header.OfListAccepts | lib/header.ml:18-24 | accepted are names of printable characters other than spaces and colons, and values free of control characters |
| Header.OfListToList | lib/header.ml:60-77 | building headers from their own list gives them back |
| Header.FindAll | lib/header.ml:98-105 | the values under a name, case ignored, in the order of the list |
| Packet.PacketSizeExact | lib/packet.ml:124-215 | the guarded additions give the exact wire size when it is a machine integer and an overflow error otherwise |
| Acceptance.ClassifyExactly | lib/packet.ml:140-200 | a control line is accepted as a framing if and only if its keyword and word count call for it, its last words are numbers in the integer range, and the header and the payload part are each within bound |
| Acceptance.ClassifyFault | lib/packet.ml:104-200 | a refused line gives the error of the first thing wrong with it, in the order keyword, word count, first size, second size, their relation, header bound, payload bound |
| Reader.ByteReader.constructor | lib/packet.ml:222-233 | a reader holds its slices, all of them non-empty |
| Reader.ByteReader.ReadSlice | lib/packet.ml:238-256 | a read takes the first slice; an empty result means the end of data |
| Reader.ByteReader.PushBack | lib/packet.ml:225-231 | pushed-back bytes are read next |
| Reader.ByteReader.Receive | lib/packet.mli:40-47 | more bytes arrive behind those kept |
| Reader.RestoreTo | lib/packet.ml:225-231 | the bytes already taken go back in front; an empty string is not pushed |
| Reader.ReadLineInto | lib/packet.ml:238-256 | the line loop leaves buffer, reader and outcome as the line scan says |
| Reader.ReadBodyInto | lib/packet.ml:257-269 | the body loop reads slices until the packet is complete or the data ends |
| Reader.ReadPacket | lib/packet.ml:222-317 | one read equals the function `Packet.Read`; an error leaves the bytes as they were; success takes exactly the printed packet off the front, within all limits; on a clean line the result depends on the bytes alone |
| Framing.Conserves | lib/packet.ml:222-327 | for every input: bytes before equal the printed packet (if any) followed by the bytes left, and a packet respects line, header, payload and total limits |
| Acceptance.ReadExactly | lib/packet.ml:222-317 | for all bytes: a packet is returned if and only if the bytes begin with it, line and body terminated, its line announcing it, and every size within its bound, whether an encoder would send it or not |
| Acceptance.DefaultReads | lib/packet.ml:8-14 | without limits given, those are lines of 4 KiB, headers of 64 KiB, payloads of 1 MiB and packets of 2 MiB |
| Acceptance.RefusedExactly | lib/packet.ml:222-317 | for all bytes: exactly which error is given, over limits, line, sizes, missing bytes and terminator |
| Acceptance.SlicesReadExactly | lib/packet.ml:222-317 | the same packet is returned from any cutting of a clean line, and what follows it stays |
| Acceptance.ReaderTakesMore | lib/codec.ml:445-483 | a packet whose header and payload each fit but not together is read, and refused by an encoder under the same limits |
| Framing.SlicesIrrelevant | lib/packet.ml:222-317 | with no bare CR or LF before the first CRLF the result is that of the concatenated bytes |
| Framing.RetryIsOneRead | lib/packet.mli:40-47 | on every stream that meets the condition, a retry after `Need_more` with appended bytes is one read of everything, under any limits |
| Framing.RetryExactly | lib/packet.mli:40-47 | for every byte string: all retries, wherever the first read stops and however the rest is cut, are one read of everything if and only if the condition of `CuttingMattersExactly` holds |
| Framing.BareReturn | lib/packet.ml:238-256 | `PUB a\rb 0`: in one piece a packet; read as `PUB a`, which needs more, and retried, malformed |
| Framing.RevealingCut | lib/packet.ml:238-256 | whenever the condition below fails there is a cutting whose result differs |
| Framing.CuttingMattersExactly | lib/packet.ml:238-256 | for every byte string: all cuttings give the same result if and only if the line is clean, or its bare CR or LF cannot be shown in time, or the whole is refused as malformed anyway |
| HeaderBlock.PrintBlock | lib/codec.ml:406-426 | filling the buffer gives the status line, one line for each header in order and the blank line |
| HeaderBlock.CollectFields | lib/codec.ml:193-219 | the loop over the field lines collects what the recursive reading finds, in order, or nothing when any line is bad |
| HeaderBlock.ParseBlockLoop | lib/codec.ml:182-219 | parsing a block as a whole: status, fields, then header validation, with the error of the first failure |
| HeaderBlock.StatusRoundTrip | lib/codec.ml:142-161 | parsing a printed valid status line gives the status back |
| HeaderBlock.FieldRoundTrip | lib/codec.ml:163-180 | parsing a printed field gives it back: empty values, leading spaces and colons in values included |
| HeaderBlock.FieldExactly | lib/codec.ml:163-180 | a line is read as a field if and only if it is a name, a colon and the value, one space after the colon not counting |
| HeaderBlock.StatusExactly | lib/codec.ml:142-161 | exactly which status lines are read, and as what; any other is an invalid status |
| HeaderBlock.BlockRoundTrip | lib/codec.ml:142-219 | parsing undoes printing for every valid status and every header list, in order and with repeats |
| RoundTrip.PubFaithful | lib/codec.ml:305-326 | a printed PUB is classified with its framing and decoded to itself |
| RoundTrip.HpubFaithful | lib/codec.ml:328-346 | the same for HPUB with status and headers |
| RoundTrip.MsgFaithful | lib/codec.ml:348-369 | the same for MSG |
| RoundTrip.HmsgFaithful | lib/codec.ml:371-402 | the same for HMSG with status and headers |
| RoundTrip.SubOutputFaithful | lib/codec.ml:268-287 | the same for SUB with and without a queue group |
| RoundTrip.UnsubOutputFaithful | lib/codec.ml:289-303 | the same for UNSUB with and without a maximum |
| RoundTrip.OutputFaithful | lib/codec.ml:445-616 | every operation whose output passes the limits is classified as it was framed and decoded to itself |
| Wording.EncodeExactly | lib/codec.ml:404-616 | encoding gives the words of the operation with one space between them, CRLF, and the body with another; or else the first fault of the operation, or the first bound that line, header block, header block with payload, or packet exceeds |
| Decoding.DecodeExactly | lib/codec.ml:221-402 | for every packet and operation: decoding gives the operation if and only if the packet says it, word by word |
| Decoding.DecodeFault | lib/codec.ml:221-402 | decoding fails with the first fault of the packet: keyword, framing, word count, then its parts in the order in which they are looked at |
| Stream.OutputReads | lib/packet.ml:222-317 | the printed form of an output, followed by anything, reads back as that output and is consumed to the byte |
| Stream.EncodedReads | lib/codec.ml:525-622 | reading an encoded operation followed by anything, cut anywhere, gives the operation and leaves what followed |
| Stream.StreamRoundTrip | lib/codec.ml:525-622 | any list of encodable operations, concatenated and cut anywhere, reads back in order and then the input is exhausted (more needed, or end of input), if and only if the line bound leaves room for the terminator |
| Stream.ReadOperation | lib/codec.ml:618-622 | reading through the mutable reader equals reading its slices |
| Stream.ReceivedIs | lib/codec.ml:525-622 | the server decodes an encoded operation, whatever limits it was encoded under |
| Endpoint.FindCharFrom | lib/endpoint.ml:47-57 | the loop finds the first occurrence from a position |
| Endpoint.FindAuthorityEnd | lib/endpoint.ml:59-69 | the loop finds where the authority ends |
| Endpoint.ValidateHost | lib/endpoint.ml:78-91 | the loop accepts a non-empty host of allowed characters and lower-cases it |
| Endpoint.ParsePort | lib/endpoint.ml:93-114 | the guarded loop accepts exactly the decimal strings of value 1 to 65535 and otherwise gives the error the first offence calls for |
| Endpoint.ParsedWellFormed | lib/endpoint.ml:156-199 | both parsers produce only well-formed endpoints |
| Endpoint.ProducedExactly | lib/endpoint.ml:156-210 | the well-formed endpoints are exactly those a URL can denote |
| Endpoint.WellFormedRoundTrip | lib/endpoint.ml:116-210 | both parsers, under any default scheme, undo printing of a well-formed endpoint, bracketed hosts included |
| Endpoint.RoundTrip | lib/endpoint.ml:156-210 | whatever either parser produces, both parsers give back from its printed form |
| Urls.AuthorityExactly | lib/endpoint.ml:116-154 | exactly the authorities that are a host, bracketed or without colons, and perhaps a port, are understood; the host is lower-cased and the port 4222 when none is written |
| Urls.UrlExactly | lib/endpoint.ml:156-182 | exactly the URLs of scheme nats or tls, in any case, with an authority and nothing behind it |
| Urls.ConnectUrlExactly | lib/endpoint.ml:184-199 | an advertised address is such a URL, or an authority alone under the default scheme |
| Urls.PortFaults | lib/endpoint.ml:93-114 | a port is out of range if and only if its first digits exceed 65535, whatever follows them; any other that is refused is invalid |
| Urls.AuthorityFaults | lib/endpoint.ml:116-122 | an empty authority, an `@` and a bracket left open are reported before anything else |
| Urls.BracketedFaults | lib/endpoint.ml:120-136 | with brackets, the error is that of the host, then of what follows, then of the port |
| Urls.PlainFaults | lib/endpoint.ml:137-154 | without them, the error is that of a second colon, then of the host, then of the port |
| Urls.PortlessFaults | lib/endpoint.ml:137-154 | without a port, the error is that of the host |
| Urls.UrlFaults | lib/endpoint.ml:156-182 | an empty URL and one without a colon |
| Urls.UrlFaultsAfter | lib/endpoint.ml:156-182 | the error of a URL is that of its scheme, its slashes, what ends its authority, then its authority |
| Urls.ConnectUrlFaults | lib/endpoint.ml:184-199 | the error of an advertised address |
| Pool.Deduplicate | lib/endpoint.ml:246-255 | the loop keeps the first occurrence of each endpoint |
| Scheduling.DedupBefore | lib/endpoint.ml:246-255 | of repeated endpoints the first counts: two endpoints come in the order of their first occurrences |
| Scheduling.CreatedExactly | lib/endpoint.ml:295-297 | a new pool's seeds and order are the given endpoints in order of first occurrence, with nothing discovered or preferred |
| Scheduling.AdvertisedExactly | lib/endpoint.ml:276-313 | after a non-empty advertisement the discovered endpoints are the advertised ones that are no seeds, in that order, behind the preferred one where only that keeps it; the order holds seeds and discovered, survivors in their order, then newcomers in the order advertised; seeds and preference stay |
| Scheduling.EmptyAdvertisement | lib/endpoint.ml:304-307 | an empty advertisement changes nothing |
| Scheduling.ConnectedExactly | lib/endpoint.ml:315-316 | a success makes the endpoint preferred and first, discovered where it was unknown, and keeps the others in order |
| Scheduling.FailedExactly | lib/endpoint.ml:318-337 | a failure puts a known endpoint last, ends its preference, and keeps the others in order |
| Pool.FailedExact | lib/endpoint.ml:318-337 | a failure changes nothing but the order, where the endpoint goes last, and the preference for it |
| Pool.RunKeeps | lib/endpoint.ml:276-337 | every sequence of operations keeps the invariant and the seeds |
| Pool.Reachable | lib/endpoint.ml:295-337 | in every reachable pool seeds, discovered and order are duplicate-free, seeds and discovered disjoint, the order is a permutation of both together and a preferred endpoint is dialled first |
| Pool.FailHeadRotates | lib/endpoint.ml:318-337 | failing the first candidate rotates the order by one |
| Pool.FailHeadsRotate | lib/endpoint.ml:318-337 | n such failures rotate it by n |
| Pool.FullRound | lib/endpoint.ml:318-337 | as many failures as candidates dial each once, in order, and restore the order |
| Pool.AdvertiseForward | lib/endpoint.ml:276-313 | no advertisement moves a surviving candidate further back |
| Pool.Fair | lib/endpoint.ml:276-337 | a candidate at place i is dialled within i failures, whatever is advertised in between |
| Client.Incoming | lib/client.ml:426-432 | one read of the reader and its effect: an operation, nothing yet, end of input, or an error |
| Invariant.EnqueueExact | lib/client.ml:106-107 | the two-list queue adds at the back |
| Invariant.TakeExact | lib/client.ml:109-115 | the two-list queue takes from the front, across the reversal |
| Invariant.MessageKeeps | lib/client.ml:274-304 | a message keeps the invariant, the last of a limit included |
| Invariant.OperationKeeps | lib/client.ml:306-424 | every incoming operation keeps the invariant |
| Invariant.CommandKeeps | lib/client.ml:434-722 | every command keeps the invariant |
| Invariant.TimerKeeps | lib/client.ml:724-743 | the timer keeps the invariant |
| Invariant.StepKeeps | lib/client.ml:175-743 | every input keeps the invariant |
| Invariant.Reachable | lib/client.ml:117-187 | in every reachable state ids are positive, decreasing and below the next one, limits leave at least one message, server information is present once negotiated, each draining id has its barrier queued and unanswered liveness PINGs are bounded by the maximum and by those queued |
| Conduct.StartsExactly | lib/client.ml:158-169 | a new client waits for INFO, with nothing subscribed, queued or due, and 1 as its next id |
| Conduct.OperationTaken | lib/client.ml:306-424 | an operation is taken if and only if its phase allows it and an INFO is readable; otherwise the error says which |
| Conduct.InfoExactly | lib/client.ml:306-362 | an INFO replaces the information and is announced, with the lame-duck notice exactly when it is flagged |
| Conduct.PublishAfterInfo | lib/client.ml:505-528 | a publish after an INFO is held to that INFO's maximum payload and header support |
| Conduct.PingExactly | lib/client.ml:318-412 | a PING is answered with one PONG in every phase but the closed one, and leaves all but the clock as it was |
| Conduct.OkExactly | lib/client.ml:306-424 | a +OK is announced and leaves all but the clock as it was |
| Conduct.PongExactly | lib/client.ml:368-398 | a PONG clears the unanswered count, takes the oldest barrier and completes, ends or forgets what that barrier stands for; with none queued it is a notice |
| Conduct.MessageExactly | lib/client.ml:274-304 | a message on a live id is delivered as it came and counted once; on any other it leaves no trace |
| Conduct.ErrorExactly | lib/client.ml:261-268 | a server error is announced without the quotes around it |
| Conduct.ReadExactly | lib/client.ml:426-432 | a read that is no operation does nothing, closes with one event at the end of input, or gives its error |
| Conduct.TimerExactly | lib/client.ml:724-743 | the timer does nothing before the deadline, closes when the maximum is reached, and else sends one PING and queues one barrier |
| Conduct.ForgetExactly | lib/client.ml:244-252 | forgetting an id removes that subscription and its mark as draining, and nothing else |
| Conduct.ConnectSays | lib/client.ml:441-462 | every field of the CONNECT value |
| Conduct.ReconnectExactly | lib/client.ml:175-187 | a reconnect waits for INFO, drops information, drains, deadline and count, keeps subscriptions and the next id, and keeps or empties the barriers |
| Conduct.ReconnectCycle | lib/client.ml:175-503 | from any state, the closed one included: after a reconnect and a readable INFO, Connect is accepted if and only if its text and the SUB lines fit, and what the server hears builds the subscriptions held before |
| Conduct.SubscribeExactly | lib/client.ml:530-564 | a subscribe adds one subscription, as asked for, under the next id |
| Conduct.UnsubscribeExactly | lib/client.ml:568-614 | an unsubscribe or a limit changes that subscription and its mark as draining, and nothing else |
| Conduct.DrainSubscriptionExactly | lib/client.ml:616-649 | a drain marks the id and queues its barrier |
| Conduct.DrainExactly | lib/client.ml:669-703 | a connection drain changes the phase and queues its barrier |
| Conduct.FlushExactly | lib/client.ml:651-667 | a flush queues its barrier and changes nothing else |
| Conduct.PublishChangesNothing | lib/client.ml:505-528 | an accepted publish leaves the state as it was |
| Conduct.CloseExactly | lib/client.ml:192-722 | a close is refused when closed already, and else closes with one event and no deadline |
| Conduct.PublishRefused | lib/client.ml:254-528 | the error of a publish without a connection, by phase |
| Conduct.SubscribeRefused | lib/client.ml:530-564 | the error of a subscribe while draining or closed |
| Conduct.UnsubscribeRefused | lib/client.ml:568-722 | the error of a refused unsubscribe or limit: the count first, then the id, then the phase |
| Conduct.DrainSubscriptionRefused | lib/client.ml:616-649 | the error of a refused drain: the phase first, then the id |
| Conduct.DrainRefused | lib/client.ml:254-703 | the error of a connection drain without a connection, by phase |
| Conduct.FlushRefused | lib/client.ml:651-667 | a flush is refused when closed |
| Conduct.ConnectRefused | lib/client.ml:434-503 | the error of a refused Connect in each phase |
| Shape.StepHeard | lib/client.ml:434-743 | decoding a step's output lines gives exactly the operations its input stands for |
| Shape.AcceptedExactly | lib/client.ml:530-722 | for every command but Connect and Publish: it is accepted if and only if its phase allows it, the subscription it names exists (and is not draining already), a maximum is positive and a SUB line fits |
| Wire.PublishExactly | lib/client.ml:505-528 | a publish is accepted if and only if the connection is up, headers are negotiated where used, line and block fit and block and payload together stay within the server's bound; beyond that bound the error names size and limit |
| Wire.DecodedAll | lib/client.ml:223-232 | decoding a list of encoded operations gives the list |
| Wire.ReplayFoldExact | lib/client.ml:466-500 | the accumulating fold emits the oldest subscription first, each SUB before its UNSUB |
| Wire.ReplayTable | lib/client.ml:466-500 | the replay builds, in an empty server table, exactly the client's subscriptions with their remaining limits |
| Wire.ConnectExactly | lib/client.ml:434-503 | Connect succeeds if and only if its JSON is available, non-empty, without line breaks and fits, and each subscription's line fits |
| Wire.ReplayRebuilds | lib/client.ml:434-503 | from a state satisfying the invariant, decoding the output of Connect and processing it on an empty table gives the client's subscriptions, in creation order |
| History.EveryStepEvolves | lib/client.ml:244-304 | a step changes a subscription only by counting a delivery or by setting a limit it was asked for, and ends it only if its input is one of those that end it |
| History.EndedExactly | lib/client.ml:244-404 | a step ends a live subscription if and only if its input is an unsubscribe or a used-up limit in an open phase, a forget, the last message of its limit, or a PONG whose oldest barrier is its drain or the connection's |
| History.LivesExactly | lib/client.ml:175-743 | a live subscription lives through a run, reconnects included, if and only if no input of the run ends it |
| History.StepIssues | lib/client.ml:530-564 | only a subscribe hands out an id: the next one, for a subscription with nothing delivered |
| History.DeliveryIsLive | lib/client.ml:274-304 | a delivery names a subscription live before the step |
| History.IssuedExact | lib/client.ml:530-564 | over any run the ids handed out are consecutive, so none is handed out twice |
| History.RetiredForGood | lib/client.ml:274-304 | an id once retired is never delivered on, issued or live again in any run |
| History.LiveStaysItself | lib/client.ml:274-304 | a live id keeps its filter and queue group and counts exactly the messages delivered on it |
| History.CountsFromIssue | lib/client.ml:274-304 | nothing is delivered on an id before it is issued |
| History.WithinLimit | lib/client.ml:274-304 | deliveries to come stay within what remains, across any number of sessions |
| History.LimitConserved | lib/client.ml:274-304 | delivered plus remaining stays equal to the limit across sessions |
| History.AtMostInTotal | lib/client.ml:568-614 | once a limit is accepted the whole run delivers at most that many messages on the id, if no later limit is higher |
| Barriers.StepQueues | lib/client.ml:368-398 | a step's PING joins the queue at the back and a PONG resolves what is taken from the front; a flush completes exactly for barriers other than liveness probes |
| Barriers.FirstComeFirstServed | lib/client.ml:103-115 | in a session begun with an empty queue the k-th PONG resolves the k-th PING, and the queue holds the rest |
| Barriers.PingsOnTheWire | lib/client.ml:616-743 | as many PINGs are on the wire as origins are recorded |
| Barriers.DeadPeerClosed | lib/client.ml:724-748 | a silent peer is sent exactly the remaining PINGs, one interval apart, and closed one interval after the last |
| Barriers.DeadPeerExactly | lib/client.ml:201-206 | a silent peer is ever closed if and only if the clock can express that deadline |
| Clock.ActivityExactly | lib/client.ml:201-424 | every accepted operation but a stray message sets the deadline one interval later, or drops it if the clock cannot express that |
| Clock.TimerActivity | lib/client.ml:724-743 | a timer at or after the deadline, however late, counts the next one from its own time |
| Clock.CommandLeavesClock | lib/client.ml:434-722 | no command moves the deadline, but a close, which drops it |
| Clock.DeadlineExactly | lib/client.ml:201-748 | in every run the connected client asks for a wake-up exactly one interval after the last activity of the session |
| Clock.SilentPeerClosed | lib/client.ml:724-748 | a connection last active at a time, with p PINGs unanswered, sends the remaining PINGs one interval apart and closes (maximum - p + 1) intervals after that time |
| Clock.DeadPeerAfterRun | lib/client.ml:201-748 | the same of any run, and a silent peer is ever given up if and only if the clock can express that moment |
| Network.NextKeepsKnown | lib/client.ml:530-564 | every id on a link, in a log or in the server's table has been issued |
| Feeding.ReplayFeeds | lib/client.ml:466-500 | the replayed SUB and UNSUB leave the server, at every moment, with at least what the client expects |
| Feeding.TendedLimit | lib/client.ml:568-614 | a lower limit, sent as an absolute maximum, keeps the server's allowance and the messages in flight at or above what remains |
| Feeding.NextFed | lib/client.ml:274-614 | every move of either side keeps a subscription fed |
| Feeding.NeverStarved | lib/client.ml:274-614 | in every run with reconnects anywhere and limits not raised within a session, the server's remaining allowance plus the messages in flight never falls below the client's remaining count, for an id not drained in the session |
| Feeding.RaisedExactly | lib/client.ml:568-614 | a new limit, of any size, is accepted, and leaves the server enough to send if and only if the server still holds the subscription once it has heard what is pending, or what is on its way already meets the limit |
| Starvation.RaisingStarves | lib/client.ml:568-614 | for any configuration, subject and message there is a run from the start, with the one message of a limit of one in flight, at whose end a limit of five starves the subscription |
| Starvation.StarvedRun | lib/client.ml:568-614 | one such run with a given server, configuration and subject |
| Drains.GuardEnds | lib/client.ml:616-703 | while a drain's barrier is queued, the server will not hold the id once it has heard everything sent |
| Drains.NextOrdered | lib/client.ml:368-703 | every move keeps PINGs, PONGs and queued barriers aligned, with no message on a drained id behind its PONG |
| Drains.NextLogged | lib/client.ml:274-304 | what the server sent on a live id is what the client delivered followed by what is on the link |
| Drains.ClientRuns | lib/client.ml:175-743 | the client of a network run is a client run on the inputs the network gives it |
| Drains.NothingLost | lib/client.ml:616-649 | when the PONG of a drain finds a subscription live, limited or not, every message the server sent on it in the session has been delivered in order, the server holds it no longer, the flush completes, and no later run delivers on it |
| Survival.UnlimitedLives | lib/client.ml:274-404 | a subscription without a limit that is not unsubscribed, limited or forgotten lives until the PONG of a drain of it or of the connection |
| Survival.FirstDrainLosesNothing | lib/client.ml:616-703 | from any moment of a session at which a subscription is live and unlimited, if it is left alone, the first PONG of a drain finds everything the server sent on it delivered |
| Survival.OwnDrainLosesNothing | lib/client.ml:616-703 | a live, unlimited subscription that is drained and then left alone lives to the PONG answering that very drain, which finds everything delivered, completes the flush and is followed by no delivery in any later run |
| Drains.DrainedForGood | lib/client.ml:669-703 | after the PONG of a connection drain nothing is delivered again in that session |
| Arrivals.GuardDue | lib/client.ml:368-398 | once the server has processed everything, the PONG of each queued drain is on the link, behind those of the earlier barriers |
| Arrivals.CatchUp | lib/client.ml:616-703 | by processing alone the server reaches a state with nothing unheard, the alignment kept and the client untouched |
| Arrivals.Receives | lib/client.ml:274-398 | by receipts alone the client, refusing nothing, comes to the PONG of the drain with the subscription still live |
| Arrivals.DrainCompletes | lib/client.ml:616-703 | from every state of every run in which the drain of a live, unlimited subscription is waiting, the server processing what it has heard and the client receiving what it was sent, with no other move, reach the PONG that ends it |

## Left out

- The Eio adapter with JetStream, Key-Value, Object Store, Services and the reconnect fibers: their implementation is not part of this model.
- The JSON library: reading INFO and writing CONNECT are function-valued parameters; read information has a positive maximum payload, and CONNECT text may be anything (the encoder refuses empty text and line breaks).
- `Codec.write`, the printers for messages and errors, the `literal` constructors and the accessors of `lib/config.ml` and `lib/info.ml`: no modelled operation calls them, or they only hand over a field. `lib/auth.ml` chooses the credentials that Connect is given; the model takes any.
- Bytes are characters of a Dafny string and not bounded to 0..255; no proof uses the bound.
- The inside of the byte-stream library beyond reading a slice, the end of data and push-back.
- Clock reading: times are natural numbers; the deadline is dropped when it passes 64 bits, as the monotonic clock's addition does.
- Client.Incoming: ids and delivery counts are unbounded integers in the client, where the machine's wrap past `max_int`; lemmas about the wire assume that the next id is at most `max_int`.
- Subject and filter matching: the repository has none, so the abstract server may send any message on an id it holds.
- Network.NextKeepsKnown: the abstract server never sends a PONG that answers no PING; a session whose next operation the client refuses can only be given up.
- Feeding.NeverStarved: says nothing about an id drained in the current session, whose UNSUB has ended it on purpose.
- Arrivals.DrainCompletes: shows that the PONG can be reached from everywhere, not that it is; no fairness of the links is assumed. It asks that an INFO on its way can be read, because the client refuses one that cannot.
