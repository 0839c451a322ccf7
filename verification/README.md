# Federated chat relay: server step, directory and client agent

A model of the two protocol state machines of a small chat relay built on
QUIC streams:

- the **server's per-stream protocol handler**. It authenticates a CONNECT
  against the shared secret `password123` and registers the nickname in the
  client directory. It answers LIST and PEER_LIST with the comma-joined
  nickname list. A LIST is also federated over the peer link to the partner
  server when that link exists. It routes a DM (`recipient|message|sender`)
  either to the recipient's stream as `sender: message` or, for an unknown
  recipient, over the peer link (verbatim for a three-field payload). Every other type, PING included,
  is skipped;
- the **client directory**: the nickname-to-stream map `clients` and the
  nickname list kept beside it. The list helpers append (`addNickname`) and
  splice out the first match (`removeNickname`). Only `addClient` calls
  either of them, through `addNickname`; `removeNickname` has no caller. So
  the map and the list only grow, and no entry is evicted when a stream
  ends;
- the **client agent**. It sends the CONNECT request and latches the
  authenticated flag and the echoed nickname. It runs the console command
  loop (`exit`, `list`, `away`, anything else is a DM), with a check that
  closes the stream when a write is attempted while unauthenticated. Its
  receive loop answers every decoded PDU with an away notice while the away flag is
  set.

Streams are abstract identifiers (`StreamId`). Every write is appended to a
log: `(stream, PDU)` pairs on the server, and the PDUs written to the
agent's one stream on the client. A PDU is the record `{mtype, len, data}`.
Its length field is the payload length cast to 32 bits. Payload bytes are
modelled as characters.

Files:

- `pdu.dfy`: the PDU record, the type codes and what a read delivers.
- `gostrings.dfy`: `strings.Split` with a one-character separator and
  `strings.Join`, with the round trips between them.
- `directory.dfy`: the nickname-list helpers.
- `server.dfy`: one handler step as functions on `ServerState`, and the
  class `Server`, whose methods update its fields and are proved against
  those functions.
- `client.dfy`: the agent's operations as functions on `ClientState`, and
  the class `Client`, proved against them.
- `scenarios.dfy`: properties joining client and server.

The model follows the code as written; in particular:

- The server handler does not track whether its stream has authenticated.
  LIST, PEER_LIST and DM are served on any stream, and CONNECT may be
  repeated.
- A CONNECT payload without a `|`, or a DM payload with fewer than three
  fields, indexes past the end of the split fields. That is a Go runtime
  panic (outcome `Panic`), which takes down the whole server process rather
  than one stream.
- A DM for an unregistered recipient while there is no peer link calls
  `Write` on a nil stream. That is also a panic, not a silent drop.
- A DM payload with more than three fields is not forwarded verbatim. Only
  the first three fields are used, so the sender becomes the third field.
- A LIST with no local nicknames answers `,` followed by the peer's list
  when there is a peer link; without one the answer is empty.
- The client latches `authed` on any reply that decodes, whatever its type.
- The receive loop takes the text before the first colon as the sender.
  For delivered DMs (`sender: message`) this is the sender when the
  sender's name has no colon; a name with a colon is cut at its first
  colon. For any other payload (a LIST answer, say) it is the whole text
  when that text has no colon.

## Model

| member | source | states |
|---|---|---|
| `Pdu.Make` | pkg/server/server.go:137-141 | the PDU carries the given type and payload, and its length field is the payload length taken modulo 2^32 (equal to it below 2^32) |
| `GoStrings.Split` | pkg/server/server.go:126 | there is always at least one field; no field contains the separator; the first field is the prefix of the input up to the first separator |
| `GoStrings.SplitCount` | pkg/server/server.go:126 | a payload with k separators splits into exactly k + 1 fields |
| `GoStrings.JoinSplit` | pkg/server/server.go:126 | joining the split fields with the separator gives back the payload |
| `GoStrings.SplitJoin` | pkg/server/server.go:165 | splitting a join of separator-free fields gives back the fields |
| `GoStrings.SplitJoinThen` | pkg/server/server.go:208 | a join followed by a separator and more text splits into the fields followed by that text's fields |
| `GoStrings.FirstField` | pkg/client/client.go:179-181 | the result is the longest separator-free prefix of the input |
| `GoStrings.FirstFieldOf` | pkg/client/client.go:179-181 | the first field of `name + ":" + rest` is `name` when the name has no colon |
| `Directory.IndexOf` | pkg/server/server.go:297-298 | the first position holding the nickname |
| `Directory.RemoveFirst` | pkg/server/server.go:296-302 | an absent nickname leaves the list unchanged; otherwise exactly the first occurrence is cut out and the other entries keep their order |
| `Directory.RemoveFirstMultiset` | pkg/server/server.go:296-302 | a removal takes away exactly one copy of the nickname and shortens the list by one |
| `Directory.UpdateNicknamesContext` | pkg/server/server.go:292-305 | adding appends the nickname with no duplicate check; removing returns the list with the first match cut out |
| `ChatServer.AddClientTo` | pkg/server/server.go:239-242 | the nickname now maps to the stream and every other entry is kept, so re-registering a nickname leaves the key set unchanged; the list grows by one at its end; every mapped nickname stays listed |
| `ChatServer.HandleConnect` | pkg/server/server.go:129-160 | right secret: registered, and exactly one DATA+ACK reply to the stream carrying the nickname with a consistent length; wrong secret: no write, the stream is closed, the directory is unchanged and the handler ends |
| `ChatServer.HandlePeerList` | pkg/server/server.go:162-178 | one DATA reply with the local list, to the asking stream only; no state change |
| `ChatServer.HandleList` | pkg/server/server.go:180-222 | no peer: the same answer as PEER_LIST; with a peer: an empty PEER_LIST query on the link first, then DATA `local + "," + peer payload` to the asker, or the handler ends after the query when the peer read fails |
| `ChatServer.PrivateMessage` | pkg/server/server.go:244-281 | a registered recipient gets exactly one DATA `sender: message` on its stream; otherwise exactly one DM of the fields recipient, message, sender joined by pipes goes to the peer link, or a panic when there is none; the directory never changes |
| `ChatServer.Dispatch` | pkg/server/server.go:108-233 | one handler step keeps the peer link, only adds closed streams and map keys, and keeps every mapped nickname listed; read or decode failure ends the handler; an unhandled type (PING included) writes nothing and changes nothing; only a successful CONNECT changes the directory; a panic happens only on CONNECT or DM: a CONNECT panics exactly when its payload has no pipe, and a DM exactly when its payload has fewer than two pipes or names a recipient that is not registered while there is no peer link |
| `ChatServer.Serve` | pkg/server/server.go:108-233 | over a whole run, the peer link is kept, closed streams and map keys only grow, and every mapped nickname stays listed |
| `ChatServer.LocalListFields` | pkg/server/server.go:163-165 | the local list answer splits back into exactly the nickname list, in order, when nicknames have no comma |
| `ChatServer.FederatedListFields` | pkg/server/server.go:197-214 | the federated answer splits into the local nicknames followed by the fields of the peer's payload |
| `ChatServer.EmptyListFields` | pkg/server/server.go:197-214 | with no local nicknames the federated answer splits into one empty field followed by the fields of the peer's payload |
| `ChatServer.ConnectAccepted` | pkg/server/server.go:129-155 | CONNECT of `nick` and `password123` joined by a pipe maps `nick` to the stream, appends it to the list and writes exactly DATA+ACK `nick` to the stream |
| `ChatServer.ConnectRefused` | pkg/server/server.go:156-160 | CONNECT with another secret writes nothing, closes the stream and leaves map and list unchanged |
| `ChatServer.DmDeliveredLocally` | pkg/server/server.go:224-274 | DM of `bob`, `hello`, `alice` joined by pipes with bob registered writes exactly DATA `alice: hello` to bob's stream and nothing to the peer |
| `ChatServer.DmForwardedVerbatim` | pkg/server/server.go:246-259 | a three-field DM for an unregistered recipient is written to the peer link with the identical payload; the directory is unchanged |
| `ChatServer.Server.constructor` | pkg/server/server.go:44-53 | a new server has an empty map and list, no peer link and no writes |
| `ChatServer.Server.LinkPeer` | pkg/server/server.go:337-338 | after the peer dial succeeds the link's stream is stored |
| `ChatServer.Server.AddNickname` | pkg/server/server.go:284-286 | the list gains the nickname at its end |
| `ChatServer.Server.RemoveNickname` | pkg/server/server.go:288-290 | the list loses the first occurrence, or is unchanged when the nickname is absent |
| `ChatServer.Server.AddClient` | pkg/server/server.go:239-242 | map and list change as `AddClientTo` states |
| `ChatServer.Server.SendPrivateMessage` | pkg/server/server.go:244-281 | the writes and outcome are those of `PrivateMessage`; map and list are untouched |
| `ChatServer.Server.HandlePdu` | pkg/server/server.go:109-232 | the new fields, the appended writes and the outcome are those of `Dispatch` |
| `ChatServer.Server.ProtocolHandler` | pkg/server/server.go:108-233 | the read-dispatch loop ends in the state, writes and outcome of `Serve` |
| `ChatClient.CheckAuth` | pkg/client/client.go:155-160 | the stream is closed afterwards exactly when it was closed already or the agent is not authenticated; nothing else changes |
| `ChatClient.WriteIo` | pkg/client/client.go:142-153 | exactly one PDU of the given type and payload is written, even when unauthenticated; the stream is closed first exactly when unauthenticated |
| `ChatClient.Connected` | pkg/client/client.go:77-111 | the request is written; once a reply decodes, `authed` is true and `nickname` is the reply's payload; a failed read or decode latches nothing |
| `ChatClient.Command` | pkg/client/client.go:123-134 | `exit` closes the stream, sends nothing and stops the loop; `list` writes one LIST with an empty payload; `away` flips the flag and sends nothing; any other line writes one DM of the line, a pipe and the nickname |
| `ChatClient.Commands` | pkg/client/client.go:122-139 | the command loop always leaves the stream closed, keeps nickname and authentication, and only appends to the write log |
| `ChatClient.CommandsSend` | pkg/client/client.go:122-139 | the command loop writes exactly one PDU per line before the first `exit`, except `away` lines, in order |
| `ChatClient.AwayTwice` | pkg/client/client.go:129-130 | two `away` lines in a row leave the agent as it was |
| `ChatClient.ExitStops` | pkg/client/client.go:125-126 | an `exit` line closes the stream, sends nothing and ignores the remaining lines |
| `ChatClient.Listen` | pkg/client/client.go:162-184 | the receive loop keeps nickname, flag and authentication; with the flag unset it changes nothing |
| `ChatClient.AwayReply` | pkg/client/client.go:179-181 | when the text before the first colon and the nickname carry no pipe, the away reply splits on pipes into exactly that text as recipient, `I am away` as message and the nickname as sender |
| `ChatClient.ListenReplies` | pkg/client/client.go:162-184 | while away, the loop writes exactly one away notice per decoded PDU before the first read failure, skipping decode failures, and nothing else; each notice is a DM whose payload is `AwayReply` of the received payload |
| `ChatClient.Client.constructor` | pkg/client/client.go:34-53 | a new agent is unauthenticated, not away, with an open stream and nothing written |
| `ChatClient.Client.Connect` | pkg/client/client.go:77-111 | the fields change as `Connected` states |
| `ChatClient.Client.CheckIsAuthed` | pkg/client/client.go:155-160 | the fields change as `CheckAuth` states |
| `ChatClient.Client.WriteIoToStream` | pkg/client/client.go:142-153 | the fields change as `WriteIo` states |
| `ChatClient.Client.RunCommands` | pkg/client/client.go:120-139 | the loop over the console lines ends in the state `Commands` gives |
| `ChatClient.Client.ListenForDirectMessages` | pkg/client/client.go:162-184 | the receive loop ends in the state `Listen` gives |
| `Scenarios.DmLineDelivered` | pkg/client/client.go:132-133 | a console line of `bob`, a pipe and `hi` from `alice` becomes a DM of `bob`, `hi`, `alice` joined by pipes, which the server hands to bob as `alice: hi` |
| `Scenarios.AwayNoticeReachesSender` | pkg/client/client.go:177-181 | an away agent receiving `alice: hi` sends a DM of `alice`, `I am away` and its nickname joined by pipes, and the server hands alice `nick: I am away` |
| `Scenarios.AwayNoticesEcho` | pkg/client/client.go:177-181 | between two away agents an away notice produces another away notice in return, so the exchange does not stop by itself |
| `Scenarios.AwayNoticeToListAnswer` | pkg/client/client.go:177-181 | an away agent receiving a colon-free payload such as a LIST answer addresses its notice to the whole payload; with no such nickname and no peer link the server panics |

## Left out

- The PDU byte codec (`PduToBytes`, `PduFromBytes`, `MakePduBuffer`, the numeric type codes). `pkg/pdu` is not part of this model. A read delivers a decoded PDU, a read failure or a decode failure. Encoding is taken to succeed, so the encode-error branches of the handlers are not modelled.
- Write failures on streams: every write is logged as performed. The server's return on a failed reply write (pkg/server/server.go:151-155) is not modelled. On the client the log records every write call, including one on a stream already closed, because whether such a write reaches the server is transport behaviour.
- QUIC and TLS plumbing: `getTLS`, `Run`, `streamHandler`, the dial in the client's `Run`, `OpenStreamSync`, and the TLS part of `NewClient`.
- `ConnectToPeerServer` dials with a sleep and retries recursively. Only its successful outcome is modelled (`Server.LinkPeer`).
- `pingServer` in both files: timed, endless keepalive writes whose errors are ignored.
- Concurrency: the unsynchronised sharing of `clients` and of the peer stream between handler goroutines, and the client's receive loop running beside its command loop. Each loop is modelled on its own, and the away flag is fixed during a receive-loop run. The peer's answer to a federated LIST is a given payload, whatever its type. Nothing models which concurrent caller it was meant for.
- The reuse of the handler's read buffer for the peer's reply. The decode error ignored at pkg/server/server.go:206 is also left out, so the peer's reply is a payload string.
- Logging, printing and the console scanner: the input is a given sequence of lines.
- The aliasing of Go's `append` in `updateNicknamesContext`, where the old and new lists may share storage. It is not modelled because only the newest list is ever read.
- Go strings are byte strings. Characters here stand for bytes, and lengths are byte counts.
