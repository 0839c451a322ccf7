/**
 * The client agent: it connects with a CONNECT request, latches the
 * nickname the server echoes back, then runs a command loop over console
 * lines and, beside it, a receive loop that can answer with an away notice.
 *
 * The agent uses one stream.  The model keeps whether that stream has been
 * closed and the log of every PDU handed to its Write, in order.  Console
 * input is a given sequence of lines and the receive loop's reads a given
 * sequence of read outcomes.  The functions specify each operation on a
 * ClientState value; the class Client performs them on its fields and is
 * proved against them.
 */
module ChatClient {
  import opened Pdu
  import opened GoStrings

  datatype ClientState = ClientState(
    nickname: string,
    away: bool,
    authed: bool,
    closed: bool,
    sent: seq<Pdu>)

  /** The text of the automatic reply sent while away. */
  const AwayMessage: string := "I am away"

  /** checkIsAuthed: an agent that is not authenticated closes its stream. */
  function CheckAuth(st: ClientState): (r: ClientState)
    ensures r.closed <==> st.closed || !st.authed
    ensures r == st.(closed := r.closed)
  {
    if st.authed then st else st.(closed := true)
  }

  /** writeIoToStream: the authentication check, then one write of the
      PDU, which is attempted even when the check has just closed the
      stream. */
  function WriteIo(st: ClientState, t: MsgType, msg: string): (r: ClientState)
    ensures r.sent == st.sent + [Make(t, msg)]
    ensures r.closed <==> st.closed || !st.authed
    ensures r.nickname == st.nickname && r.away == st.away && r.authed == st.authed
  {
    var checked := CheckAuth(st);
    checked.(sent := checked.sent + [Make(t, msg)])
  }

  datatype ConnectResult = ConnectResult(state: ClientState, ok: bool)

  /** The connection phase of protocolHandler: write the request, then read
      the server's reply.  A reply that decodes, whatever its type, marks
      the agent authenticated and sets its nickname to the reply's payload;
      a failed read or decode ends the handler with nothing latched. */
  function Connected(st: ClientState, mtype: MsgType, payload: string, reply: Incoming): (r: ConnectResult)
    ensures r.state.sent == st.sent + [Make(mtype, payload)]
    ensures r.ok <==> reply.Received?
    ensures r.ok ==> r.state.authed && r.state.nickname == reply.pdu.data
    ensures !r.ok ==> r.state.authed == st.authed && r.state.nickname == st.nickname
    ensures r.state.away == st.away && r.state.closed == st.closed
  {
    var written := st.(sent := st.sent + [Make(mtype, payload)]);
    match reply
    case Received(rsp) => ConnectResult(written.(authed := true, nickname := rsp.data), true)
    case _ => ConnectResult(written, false)
  }

  datatype LineResult = LineResult(state: ClientState, exit: bool)

  /** One console line: "exit" closes the stream and ends the loop, "list"
      asks for the user list, "away" toggles the away flag, and any other
      line is sent as a DM with the agent's nickname appended. */
  function Command(st: ClientState, line: string): (r: LineResult)
    ensures r.exit <==> line == "exit"
    ensures r.state.nickname == st.nickname && r.state.authed == st.authed
    ensures line == "exit" ==> r.state.sent == st.sent && r.state.closed && r.state.away == st.away
    ensures line == "list" ==> r.state == WriteIo(st, List, [])
    ensures line == "away" ==>
      r.state.away == !st.away && r.state.sent == st.sent && r.state.closed == st.closed
    ensures line != "exit" && line != "list" && line != "away" ==>
      r.state == WriteIo(st, Dm, line + "|" + st.nickname)
  {
    if line == "exit" then LineResult(st.(closed := true), true)
    else if line == "list" then LineResult(WriteIo(st, List, []), false)
    else if line == "away" then LineResult(st.(away := !st.away), false)
    else LineResult(WriteIo(st, Dm, line + "|" + st.nickname), false)
  }

  /** The command loop over the console lines: it stops at "exit", and
      closes the stream when the input ends, so it always leaves the
      stream closed. */
  function Commands(st: ClientState, lines: seq<string>): (r: ClientState)
    ensures r.closed
    ensures r.nickname == st.nickname && r.authed == st.authed
    ensures st.sent <= r.sent
    decreases |lines|
  {
    if lines == [] then st.(closed := true)
    else
      var step := Command(st, lines[0]);
      if step.exit then step.state else Commands(step.state, lines[1..])
  }

  /** The PDUs the command lines ask for: one per line before the first
      "exit", except "away" lines, which send nothing. */
  function Requests(lines: seq<string>, nickname: string): (r: seq<Pdu>)
    decreases |lines|
  {
    if lines == [] || lines[0] == "exit" then []
    else
      var own :=
        if lines[0] == "away" then []
        else if lines[0] == "list" then [Make(List, [])]
        else [Make(Dm, lines[0] + "|" + nickname)];
      own + Requests(lines[1..], nickname)
  }

  /** The command loop writes exactly the requested PDUs, in order. */
  lemma {:induction false} CommandsSend(st: ClientState, lines: seq<string>)
    ensures Commands(st, lines).sent == st.sent + Requests(lines, st.nickname)
    decreases |lines|
  {
    if lines != [] && lines[0] != "exit" {
      var next := Command(st, lines[0]).state;
      CommandsSend(next, lines[1..]);
    }
  }

  /** Two "away" lines in a row leave the agent as it was. */
  lemma AwayTwice(st: ClientState, rest: seq<string>)
    ensures Commands(st, ["away", "away"] + rest) == Commands(st, rest)
  {
  }

  /** An "exit" line closes the stream, sends nothing and ignores the rest. */
  lemma ExitStops(st: ClientState, rest: seq<string>)
    ensures Commands(st, ["exit"] + rest) == st.(closed := true)
  {
  }

  /** The automatic reply's payload: the text before the first colon of the
      received payload (the sender's name in a delivered DM), the away
      notice and the agent's nickname, pipe-separated as a DM request.
      When that name and the nickname carry no pipe, the server reads the
      reply back as recipient, message and sender. */
  function AwayReply(data: string, nickname: string): (r: string)
    ensures '|' !in FirstField(data, ':') && '|' !in nickname ==>
      Split(r, '|') == [FirstField(data, ':'), AwayMessage, nickname]
  {
    NoticeFields(FirstField(data, ':'), nickname);
    FirstField(data, ':') + "|" + AwayMessage + "|" + nickname
  }

  lemma NoticeFields(recipient: string, nickname: string)
    ensures '|' !in recipient && '|' !in nickname ==>
      Split(recipient + "|" + AwayMessage + "|" + nickname, '|') == [recipient, AwayMessage, nickname]
  {
    if '|' !in recipient && '|' !in nickname {
      assert '|' !in AwayMessage;
      SplitThree(recipient, AwayMessage, nickname, '|');
    }
  }

  /** ListenForDirectMessages over a sequence of reads: a read failure ends
      the loop, a decode failure skips that read, and each decoded PDU is
      answered with an away notice exactly when the away flag is set. */
  function Listen(st: ClientState, inbox: seq<Incoming>): (r: ClientState)
    ensures r.nickname == st.nickname && r.away == st.away && r.authed == st.authed
    ensures !st.away ==> r == st
    ensures st.sent <= r.sent
    decreases |inbox|
  {
    if inbox == [] then st
    else
      match inbox[0]
      case ReadFailed => st
      case DecodeFailed => Listen(st, inbox[1..])
      case Received(p) =>
        var next := if st.away then WriteIo(st, Dm, AwayReply(p.data, st.nickname)) else st;
        Listen(next, inbox[1..])
  }

  /** The PDUs the receive loop gets to see: the decoded ones before the
      first read failure. */
  function Delivered(inbox: seq<Incoming>): (r: seq<Pdu>)
    decreases |inbox|
  {
    if inbox == [] || inbox[0].ReadFailed? then []
    else if inbox[0].DecodeFailed? then Delivered(inbox[1..])
    else [inbox[0].pdu] + Delivered(inbox[1..])
  }

  /** The away notices for the given PDUs, one each, in order. */
  function AwayNotices(pdus: seq<Pdu>, nickname: string): (r: seq<Pdu>)
  {
    seq(|pdus|, i requires 0 <= i < |pdus| => Make(Dm, AwayReply(pdus[i].data, nickname)))
  }

  /** While away, the receive loop answers every delivered PDU with exactly
      one away notice and sends nothing else. */
  lemma {:induction false} ListenReplies(st: ClientState, inbox: seq<Incoming>)
    requires st.away
    ensures Listen(st, inbox).sent == st.sent + AwayNotices(Delivered(inbox), st.nickname)
    decreases |inbox|
  {
    if inbox != [] && !inbox[0].ReadFailed? {
      if inbox[0].DecodeFailed? {
        assert Listen(st, inbox) == Listen(st, inbox[1..]);
        assert Delivered(inbox) == Delivered(inbox[1..]);
        ListenReplies(st, inbox[1..]);
      } else {
        var p := inbox[0].pdu;
        var next := WriteIo(st, Dm, AwayReply(p.data, st.nickname));
        assert Listen(st, inbox) == Listen(next, inbox[1..]);
        ListenReplies(next, inbox[1..]);
        var rest := Delivered(inbox[1..]);
        assert Delivered(inbox) == [p] + rest;
        assert AwayNotices([p] + rest, st.nickname)
          == [Make(Dm, AwayReply(p.data, st.nickname))] + AwayNotices(rest, st.nickname);
      }
    } else {
      assert Delivered(inbox) == [];
    }
  }

  class Client {
    var nickname: string
    var away: bool
    var authed: bool
    /** Whether the agent's stream has been closed. */
    var closed: bool
    /** Every PDU handed to the stream's Write, in order. */
    var sent: seq<Pdu>

    function State(): ClientState
      reads this
    {
      ClientState(nickname, away, authed, closed, sent)
    }

    /** NewClient: not authenticated, not away, nothing sent. */
    constructor ()
      ensures State() == ClientState([], false, false, false, [])
    {
      nickname, away, authed, closed, sent := [], false, false, false, [];
    }

    /** The connection phase of protocolHandler. */
    method Connect(mtype: MsgType, payload: string, reply: Incoming) returns (ok: bool)
      modifies this
      ensures var r := Connected(old(State()), mtype, payload, reply);
        State() == r.state && ok == r.ok
    {
      sent := sent + [Make(mtype, payload)];
      if !reply.Received? {
        return false;
      }
      authed := true;
      nickname := reply.pdu.data;
      ok := true;
    }

    /** checkIsAuthed */
    method CheckIsAuthed()
      modifies this`closed
      ensures State() == CheckAuth(old(State()))
    {
      if !authed {
        closed := true;
      }
    }

    /** writeIoToStream */
    method WriteIoToStream(t: MsgType, msg: string)
      modifies this`closed, this`sent
      ensures State() == WriteIo(old(State()), t, msg)
    {
      CheckIsAuthed();
      sent := sent + [Make(t, msg)];
    }

    /** The command loop of protocolHandler. */
    method RunCommands(lines: seq<string>)
      modifies this
      ensures State() == Commands(old(State()), lines)
    {
      var i := 0;
      while i < |lines|
        invariant 0 <= i <= |lines|
        invariant Commands(State(), lines[i..]) == Commands(old(State()), lines)
      {
        assert lines[i..][0] == lines[i] && lines[i..][1..] == lines[i + 1..];
        var msg := lines[i];
        if msg == "exit" {
          closed := true;
          return;
        } else if msg == "list" {
          WriteIoToStream(List, []);
        } else if msg == "away" {
          away := !away;
        } else {
          WriteIoToStream(Dm, msg + "|" + nickname);
        }
        i := i + 1;
      }
      assert lines[i..] == [];
      closed := true;
    }

    /** ListenForDirectMessages */
    method ListenForDirectMessages(inbox: seq<Incoming>)
      modifies this`closed, this`sent
      ensures State() == Listen(old(State()), inbox)
    {
      var i := 0;
      while i < |inbox|
        invariant 0 <= i <= |inbox|
        invariant Listen(State(), inbox[i..]) == Listen(old(State()), inbox)
      {
        assert inbox[i..][0] == inbox[i] && inbox[i..][1..] == inbox[i + 1..];
        match inbox[i] {
          case ReadFailed =>
            return;
          case DecodeFailed =>
          case Received(rsp) =>
            if away {
              var params := Split(rsp.data, ':');
              WriteIoToStream(Dm, params[0] + "|" + AwayMessage + "|" + nickname);
            }
        }
        i := i + 1;
      }
      assert inbox[i..] == [];
    }
  }
}
