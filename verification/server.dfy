/**
 * The relay server's per-stream protocol handler and its client directory.
 *
 * Streams are abstract identifiers and every write is appended to a log of
 * (stream, PDU) pairs.  The directory is the nickname-to-stream map
 * `clients` together with the list `nicknames`; `peer` is the federation
 * link to the partner server once it has been established; `closed` holds
 * the streams the server has closed.
 *
 * The functions below specify one iteration of the handler's read-dispatch
 * loop, case by case; the class Server performs the same iteration by
 * updating its fields and is proved against them.
 */
module ChatServer {
  import opened Pdu
  import opened GoStrings
  import opened Directory

  /** The shared secret a CONNECT must carry; it is hard-coded. */
  const Password: string := "password123"

  type StreamId = nat

  datatype Option<T> = None | Some(value: T)

  /** One call of a stream's Write. */
  datatype Write = Write(stream: StreamId, pdu: Pdu)

  /** How one iteration of the handler ends. */
  datatype Outcome =
    | Continue  // the handler goes back to reading its stream
    | Exit      // the handler returns (read or decode failure, bad password, failed peer read)
    | Panic     // a Go runtime panic: a missing payload field, or a write on the absent peer link

  datatype ServerState = ServerState(
    clients: map<string, StreamId>,
    nicknames: seq<string>,
    peer: Option<StreamId>,
    closed: set<StreamId>)

  /** The new state, the writes performed in order, and how the step ended. */
  datatype Step = Step(state: ServerState, writes: seq<Write>, outcome: Outcome)

  /** One read on a stream together with what the peer answers if this
      read triggers a federated LIST (None: the read from the peer fails). */
  datatype Event = Event(input: Incoming, peerReply: Option<string>)

  /** Every nickname in the map is also on the nickname list. */
  predicate Listed(st: ServerState)
  {
    forall k :: k in st.clients ==> k in st.nicknames
  }

  /** The message types the handler acts on; every other one is skipped. */
  predicate Handled(t: MsgType)
  {
    t == ClientConnect || t == PeerList || t == List || t == Dm
  }

  /** addClient: map the nickname to the stream (overwriting an earlier
      entry) and append it to the nickname list (duplicates included). */
  function AddClientTo(st: ServerState, nickname: string, s: StreamId): (r: ServerState)
    ensures r.clients.Keys == st.clients.Keys + {nickname} && r.clients[nickname] == s
    ensures forall k :: k in st.clients && k != nickname ==> r.clients[k] == st.clients[k]
    ensures |r.nicknames| == |st.nicknames| + 1 && r.nicknames[..|st.nicknames|] == st.nicknames
    ensures r.nicknames[|st.nicknames|] == nickname
    ensures r.peer == st.peer && r.closed == st.closed
    ensures Listed(st) ==> Listed(r)
  {
    st.(clients := st.clients[nickname := s], nicknames := st.nicknames + [nickname])
  }

  /** CONNECT with payload fields `params`: the right secret registers
      params[0] on stream s and echoes it back as DATA|ACK; any other
      secret closes s without a reply. */
  function HandleConnect(st: ServerState, s: StreamId, params: seq<string>): (r: Step)
    requires |params| >= 2
    ensures r.state.peer == st.peer
    ensures params[1] == Password ==>
      && r.outcome == Continue
      && r.state == AddClientTo(st, params[0], s)
      && |r.writes| == 1 && r.writes[0].stream == s
      && r.writes[0].pdu.mtype == DataAck && r.writes[0].pdu.data == params[0]
      && Consistent(r.writes[0].pdu)
    ensures params[1] != Password ==>
      && r.outcome == Exit && r.writes == []
      && r.state.clients == st.clients && r.state.nicknames == st.nicknames
      && r.state.closed == st.closed + {s}
  {
    if params[1] == Password then
      Step(AddClientTo(st, params[0], s), [Write(s, Make(DataAck, params[0]))], Continue)
    else
      Step(st.(closed := st.closed + {s}), [], Exit)
  }

  /** The local nicknames, comma-joined, as LIST and PEER_LIST report them. */
  function LocalList(st: ServerState): (r: string)
  {
    Join(st.nicknames, ",")
  }

  /** PEER_LIST: answer the asking stream with the local nicknames only. */
  function HandlePeerList(st: ServerState, s: StreamId): (r: Step)
    ensures r.state == st && r.outcome == Continue
    ensures |r.writes| == 1 && r.writes[0].stream == s
    ensures r.writes[0].pdu == Make(Data, LocalList(st))
  {
    Step(st, [Write(s, Make(Data, LocalList(st)))], Continue)
  }

  /** LIST: without a peer link, the same answer as PEER_LIST; with one,
      first an empty PEER_LIST query on the link, then (if the peer's reply
      can be read) the local list, a comma and the peer's payload. */
  function HandleList(st: ServerState, s: StreamId, peerReply: Option<string>): (r: Step)
    ensures r.state == st
    ensures st.peer.None? ==> r == HandlePeerList(st, s)
    ensures st.peer.Some? ==>
      |r.writes| >= 1 && r.writes[0] == Write(st.peer.value, Make(PeerList, []))
    ensures st.peer.Some? && peerReply.None? ==> r.outcome == Exit && |r.writes| == 1
    ensures st.peer.Some? && peerReply.Some? ==>
      && r.outcome == Continue && |r.writes| == 2
      && r.writes[1] == Write(s, Make(Data, LocalList(st) + "," + peerReply.value))
  {
    match st.peer
    case None => HandlePeerList(st, s)
    case Some(link) =>
      var query := Write(link, Make(PeerList, []));
      match peerReply
      case None => Step(st, [query], Exit)
      case Some(remote) =>
        Step(st, [query, Write(s, Make(Data, LocalList(st) + "," + remote))], Continue)
  }

  /** sendPrivateMessage: a recipient in the directory gets "sender: message"
      as DATA on its own stream; otherwise the DM is re-packed as
      "recipient|message|sender" and written on the peer link, which panics
      when there is no link.  The directory never changes. */
  function PrivateMessage(st: ServerState, recipient: string, message: string, sender: string): (r: Step)
    ensures r.state == st
    ensures recipient in st.clients ==>
      && r.outcome == Continue
      && r.writes == [Write(st.clients[recipient], Make(Data, sender + ": " + message))]
    ensures recipient !in st.clients && st.peer.Some? ==>
      && r.outcome == Continue
      && r.writes == [Write(st.peer.value, Make(Dm, recipient + "|" + message + "|" + sender))]
    ensures recipient !in st.clients && st.peer.None? ==> r.outcome == Panic && r.writes == []
  {
    if recipient in st.clients then
      Step(st, [Write(st.clients[recipient], Make(Data, sender + ": " + message))], Continue)
    else
      match st.peer
      case None => Step(st, [], Panic)
      case Some(link) =>
        Step(st, [Write(link, Make(Dm, recipient + "|" + message + "|" + sender))], Continue)
  }

  /** One iteration of protocolHandler on stream s. */
  function Dispatch(st: ServerState, s: StreamId, input: Incoming, peerReply: Option<string>): (r: Step)
    ensures r.state.peer == st.peer
    ensures st.closed <= r.state.closed
    ensures st.clients.Keys <= r.state.clients.Keys
    ensures Listed(st) ==> Listed(r.state)
    ensures !input.Received? ==> r == Step(st, [], Exit)
    ensures input.Received? && !Handled(input.pdu.mtype) ==> r == Step(st, [], Continue)
    ensures r.outcome == Panic ==> r.state == st && r.writes == []
    ensures r.state.clients != st.clients || r.state.nicknames != st.nicknames ==>
      input.Received? && input.pdu.mtype == ClientConnect && r.outcome == Continue
    ensures r.outcome == Panic ==>
      input.Received? && (input.pdu.mtype == ClientConnect || input.pdu.mtype == Dm)
    ensures input.Received? && input.pdu.mtype == ClientConnect ==>
      (r.outcome == Panic <==> '|' !in input.pdu.data)
    ensures input.Received? && input.pdu.mtype == Dm ==>
      (r.outcome == Panic <==>
        || multiset(input.pdu.data)['|'] < 2
        || (Split(input.pdu.data, '|')[0] !in st.clients && st.peer.None?))
  {
    match input
    case ReadFailed => Step(st, [], Exit)
    case DecodeFailed => Step(st, [], Exit)
    case Received(p) =>
      var params := Split(p.data, '|');
      SplitCount(p.data, '|');
      match p.mtype
      case ClientConnect =>
        if |params| < 2 then Step(st, [], Panic) else HandleConnect(st, s, params)
      case PeerList => HandlePeerList(st, s)
      case List => HandleList(st, s, peerReply)
      case Dm =>
        if |params| < 3 then Step(st, [], Panic)
        else PrivateMessage(st, params[0], params[1], params[2])
      case _ => Step(st, [], Continue)
  }

  /** The handler loop over a sequence of reads: it stops at the first step
      that does not continue; when the reads run out it is still waiting. */
  function Serve(st: ServerState, s: StreamId, events: seq<Event>): (r: Step)
    ensures r.state.peer == st.peer
    ensures st.closed <= r.state.closed
    ensures st.clients.Keys <= r.state.clients.Keys
    ensures Listed(st) ==> Listed(r.state)
    decreases |events|
  {
    if events == [] then Step(st, [], Continue)
    else
      var first := Dispatch(st, s, events[0].input, events[0].peerReply);
      if first.outcome != Continue then first
      else
        var rest := Serve(first.state, s, events[1..]);
        Step(rest.state, first.writes + rest.writes, rest.outcome)
  }

  /** A local-only LIST or PEER_LIST answer lists exactly the nicknames on
      the list, in order (given nicknames without commas). */
  lemma LocalListFields(st: ServerState)
    requires |st.nicknames| >= 1
    requires forall i :: 0 <= i < |st.nicknames| ==> ',' !in st.nicknames[i]
    ensures Split(LocalList(st), ',') == st.nicknames
  {
    SplitJoin(st.nicknames, ',');
  }

  /** A federated LIST answer lists the local nicknames first and then the
      fields of the peer's payload. */
  lemma FederatedListFields(st: ServerState, s: StreamId, remote: string)
    requires st.peer.Some? && |st.nicknames| >= 1
    requires forall i :: 0 <= i < |st.nicknames| ==> ',' !in st.nicknames[i]
    ensures HandleList(st, s, Some(remote)).writes[1].pdu.data
      == LocalList(st) + "," + remote
    ensures Split(HandleList(st, s, Some(remote)).writes[1].pdu.data, ',')
      == st.nicknames + Split(remote, ',')
  {
    SplitJoinThen(st.nicknames, ',', remote);
  }

  /** With no local nicknames, a federated LIST answer starts with an
      empty field, followed by the fields of the peer's payload. */
  lemma EmptyListFields(st: ServerState, s: StreamId, remote: string)
    requires st.peer.Some? && st.nicknames == []
    ensures Split(HandleList(st, s, Some(remote)).writes[1].pdu.data, ',')
      == [""] + Split(remote, ',')
  {
    assert LocalList(st) + "," + remote == [','] + remote;
    SplitAtSeparator(remote, ',');
  }

  /** A CONNECT "nickname|password123" registers the nickname on the stream
      and answers DATA|ACK carrying the nickname. */
  lemma ConnectAccepted(st: ServerState, s: StreamId, nickname: string)
    requires '|' !in nickname
    ensures var r := Dispatch(st, s, Received(Make(ClientConnect, nickname + "|" + Password)), None);
      && r.outcome == Continue
      && r.writes == [Write(s, Make(DataAck, nickname))]
      && r.state.clients == st.clients[nickname := s]
      && r.state.nicknames == st.nicknames + [nickname]
  {
    SplitTwo(nickname, Password, '|');
  }

  /** A CONNECT with any other secret writes nothing, closes the stream and
      leaves the directory as it was. */
  lemma ConnectRefused(st: ServerState, s: StreamId, nickname: string, secret: string)
    requires '|' !in nickname && '|' !in secret && secret != Password
    ensures var r := Dispatch(st, s, Received(Make(ClientConnect, nickname + "|" + secret)), None);
      && r.outcome == Exit && r.writes == []
      && r.state.clients == st.clients && r.state.nicknames == st.nicknames
      && s in r.state.closed
  {
    SplitTwo(nickname, secret, '|');
  }

  /** A DM "recipient|message|sender" for a locally registered recipient is
      delivered on the recipient's stream as "sender: message". */
  lemma DmDeliveredLocally(st: ServerState, s: StreamId, recipient: string, message: string, sender: string)
    requires '|' !in recipient && '|' !in message && '|' !in sender
    requires recipient in st.clients
    ensures var r := Dispatch(st, s, Received(Make(Dm, recipient + "|" + message + "|" + sender)), None);
      && r.outcome == Continue && r.state == st
      && r.writes == [Write(st.clients[recipient], Make(Data, sender + ": " + message))]
  {
    SplitThree(recipient, message, sender, '|');
  }

  /** A DM whose recipient is not registered here, and whose payload has
      exactly three fields, is forwarded on the peer link unchanged. */
  lemma DmForwardedVerbatim(st: ServerState, s: StreamId, p: Pdu)
    requires p.mtype == Dm && st.peer.Some?
    requires |Split(p.data, '|')| == 3
    requires Split(p.data, '|')[0] !in st.clients
    ensures var r := Dispatch(st, s, Received(p), None);
      && r.outcome == Continue && r.state == st
      && r.writes == [Write(st.peer.value, Make(Dm, p.data))]
  {
    var params := Split(p.data, '|');
    JoinSplit(p.data, '|');
    JoinThree(params, "|");
  }

  class Server {
    var clients: map<string, StreamId>
    /** The nickname list, which the source carries as a context value. */
    var nicknames: seq<string>
    var peer: Option<StreamId>
    var closed: set<StreamId>
    /** Every write the server has performed, in order. */
    var writes: seq<Write>

    function State(): ServerState
      reads this
    {
      ServerState(clients, nicknames, peer, closed)
    }

    /** NewServer: an empty directory and no peer link yet. */
    constructor ()
      ensures State() == ServerState(map[], [], None, {}) && writes == []
    {
      clients := map[];
      nicknames := [];
      peer := None;
      closed := {};
      writes := [];
    }

    /** What a successful ConnectToPeerServer leaves behind: the stream of
        the link is stored for LIST and DM forwarding. */
    method LinkPeer(link: StreamId)
      modifies this`peer
      ensures peer == Some(link)
    {
      peer := Some(link);
    }

    method WriteTo(stream: StreamId, p: Pdu)
      modifies this`writes
      ensures writes == old(writes) + [Write(stream, p)]
    {
      writes := writes + [Write(stream, p)];
    }

    /** addNickname */
    method AddNickname(nickname: string)
      modifies this`nicknames
      ensures nicknames == old(nicknames) + [nickname]
    {
      nicknames := UpdateNicknamesContext(nicknames, nickname, true);
    }

    /** removeNickname */
    method RemoveNickname(nickname: string)
      modifies this`nicknames
      ensures nicknames == RemoveFirst(old(nicknames), nickname)
      ensures nickname in old(nicknames) ==> |nicknames| == |old(nicknames)| - 1
      ensures nickname !in old(nicknames) ==> nicknames == old(nicknames)
    {
      nicknames := UpdateNicknamesContext(nicknames, nickname, false);
      RemoveFirstMultiset(old(nicknames), nickname);
    }

    /** addClient */
    method AddClient(nickname: string, stream: StreamId)
      modifies this`clients, this`nicknames
      ensures State() == AddClientTo(old(State()), nickname, stream)
    {
      clients := clients[nickname := stream];
      AddNickname(nickname);
    }

    /** sendPrivateMessage */
    method SendPrivateMessage(recipient: string, message: string, sender: string)
      returns (outcome: Outcome)
      modifies this`writes
      ensures var r := PrivateMessage(old(State()), recipient, message, sender);
        writes == old(writes) + r.writes && outcome == r.outcome
    {
      if recipient !in clients {
        if peer.None? {
          return Panic;
        }
        WriteTo(peer.value, Make(Dm, recipient + "|" + message + "|" + sender));
        return Continue;
      }
      WriteTo(clients[recipient], Make(Data, sender + ": " + message));
      outcome := Continue;
    }

    /** One iteration of protocolHandler on stream s. */
    method HandlePdu(s: StreamId, input: Incoming, peerReply: Option<string>)
      returns (outcome: Outcome)
      modifies this
      ensures var r := Dispatch(old(State()), s, input, peerReply);
        State() == r.state && writes == old(writes) + r.writes && outcome == r.outcome
    {
      if !input.Received? {
        return Exit;
      }
      var p := input.pdu;
      var params := Split(p.data, '|');
      match p.mtype {
        case ClientConnect =>
          if |params| < 2 {
            return Panic;
          }
          if params[1] == Password {
            AddClient(params[0], s);
            WriteTo(s, Make(DataAck, params[0]));
            outcome := Continue;
          } else {
            closed := closed + {s};
            outcome := Exit;
          }
        case PeerList =>
          WriteTo(s, Make(Data, LocalList(State())));
          outcome := Continue;
        case List =>
          var data := LocalList(State());
          if peer.Some? {
            WriteTo(peer.value, Make(PeerList, []));
            if peerReply.None? {
              return Exit;
            }
            data := data + "," + peerReply.value;
          }
          WriteTo(s, Make(Data, data));
          outcome := Continue;
        case Dm =>
          if |params| < 3 {
            return Panic;
          }
          outcome := SendPrivateMessage(params[0], params[1], params[2]);
        case _ =>
          outcome := Continue;
      }
    }

    /** protocolHandler: read and dispatch until a step does not continue. */
    method ProtocolHandler(s: StreamId, events: seq<Event>) returns (outcome: Outcome)
      modifies this
      ensures var r := Serve(old(State()), s, events);
        State() == r.state && writes == old(writes) + r.writes && outcome == r.outcome
    {
      ghost var final := Serve(State(), s, events);
      outcome := Continue;
      var i := 0;
      while i < |events|
        invariant 0 <= i <= |events|
        invariant outcome == Continue
        invariant SameRun(Serve(State(), s, events[i..]), final, writes, old(writes))
      {
        ghost var st0, before := State(), writes;
        ghost var first := Dispatch(st0, s, events[i].input, events[i].peerReply);
        ServeFrom(st0, s, events, i);
        outcome := HandlePdu(s, events[i].input, events[i].peerReply);
        if outcome != Continue {
          return;
        }
        assert State() == first.state && writes == before + first.writes;
        ghost var rest := Serve(State(), s, events[i + 1..]);
        AppendAssoc(before, first.writes, rest.writes);
        i := i + 1;
      }
      assert events[i..] == [];
    }
  }

  /** The rest of a run, started with `done` already written, ends where
      the whole run `whole`, started from `start`, ends. */
  ghost predicate SameRun(rest: Step, whole: Step, done: seq<Write>, start: seq<Write>)
  {
    rest.state == whole.state && rest.outcome == whole.outcome
    && done + rest.writes == start + whole.writes
  }

  lemma AppendAssoc(a: seq<Write>, b: seq<Write>, c: seq<Write>)
    ensures a + (b + c) == (a + b) + c
  {
  }

  /** Serve from position i unfolds into one Dispatch and the rest. */
  lemma ServeFrom(st: ServerState, s: StreamId, events: seq<Event>, i: nat)
    requires i < |events|
    ensures var first := Dispatch(st, s, events[i].input, events[i].peerReply);
      var rest := Serve(first.state, s, events[i + 1..]);
      Serve(st, s, events[i..])
        == if first.outcome != Continue then first
           else Step(rest.state, first.writes + rest.writes, rest.outcome)
  {
  }
}
