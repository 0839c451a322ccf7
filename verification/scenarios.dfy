/**
 * Properties that join the client agent and the server: what a console
 * line becomes on the server, where the server delivers it, and what an
 * away agent answers.
 */
module Scenarios {
  import opened Pdu
  import opened GoStrings
  import S = ChatServer
  import C = ChatClient

  /** A console line that contains a pipe is never one of the commands. */
  lemma NotACommand(line: string)
    requires '|' in line
    ensures line != "exit" && line != "list" && line != "away"
  {
  }

  /** A console line "recipient|message" from an authenticated agent is sent
      as the DM "recipient|message|nickname", and a server on which the
      recipient is registered hands the recipient "nickname: message". */
  lemma DmLineDelivered(agent: C.ClientState, server: S.ServerState, s: S.StreamId,
                        recipient: string, message: string)
    requires agent.authed && !agent.closed
    requires '|' !in recipient && '|' !in message && '|' !in agent.nickname
    requires recipient in server.clients
    ensures var after := C.Command(agent, recipient + "|" + message).state;
      && after.sent == agent.sent + [Make(Dm, recipient + "|" + message + "|" + agent.nickname)]
      && !after.closed
      && S.Dispatch(server, s, Received(after.sent[|agent.sent|]), S.None).writes
         == [S.Write(server.clients[recipient], Make(Data, agent.nickname + ": " + message))]
  {
    var line := recipient + "|" + message;
    assert line[|recipient|] == '|';
    NotACommand(line);
    S.DmDeliveredLocally(server, s, recipient, message, agent.nickname);
  }

  /** An away agent that receives "sender: message" answers the sender with
      an away notice, and the server hands the sender "nickname: I am away". */
  lemma AwayNoticeReachesSender(agent: C.ClientState, server: S.ServerState, s: S.StreamId,
                                sender: string, message: string)
    requires agent.away
    requires ':' !in sender && '|' !in sender && '|' !in agent.nickname
    requires sender in server.clients
    ensures var notice := sender + "|" + C.AwayMessage + "|" + agent.nickname;
      && C.Listen(agent, [Received(Make(Data, sender + ": " + message))]).sent
         == agent.sent + [Make(Dm, notice)]
      && S.Dispatch(server, s, Received(Make(Dm, notice)), S.None).writes
         == [S.Write(server.clients[sender], Make(Data, agent.nickname + ": " + C.AwayMessage))]
  {
    var data := sender + ": " + message;
    assert data == sender + [':'] + (" " + message);
    FirstFieldOf(sender, ':', " " + message);
    var notice := sender + "|" + C.AwayMessage + "|" + agent.nickname;
    assert C.AwayReply(data, agent.nickname) == notice;
    var inbox := [Received(Make(Data, data))];
    assert C.Listen(agent, inbox) == C.Listen(C.WriteIo(agent, Dm, notice), inbox[1..]);
    assert '|' !in C.AwayMessage;
    S.DmDeliveredLocally(server, s, sender, C.AwayMessage, agent.nickname);
  }

  /** Two away agents answer each other's away notices: the notice one of
      them receives is again of the form "sender: message" that makes it
      answer, so the exchange never dies out on its own. */
  lemma AwayNoticesEcho(a: C.ClientState, b: C.ClientState, server: S.ServerState,
                        sa: S.StreamId, sb: S.StreamId)
    requires a.away && b.away
    requires ':' !in a.nickname && '|' !in a.nickname && ':' !in b.nickname && '|' !in b.nickname
    requires server.clients == map[a.nickname := sa, b.nickname := sb]
    ensures var notice := Make(Data, b.nickname + ": " + C.AwayMessage);
      var echo := C.Listen(a, [Received(notice)]).sent[|a.sent|];
      S.Dispatch(server, sa, Received(echo), S.None).writes
        == [S.Write(sb, Make(Data, a.nickname + ": " + C.AwayMessage))]
  {
    AwayNoticeReachesSender(a, server, sa, b.nickname, C.AwayMessage);
  }

  /** An away agent that receives a payload without a colon, such as a LIST
      answer, sends its away notice to the whole payload as a recipient; a
      server on which no such nickname is registered and which has no peer
      link panics on it. */
  lemma AwayNoticeToListAnswer(agent: C.ClientState, server: S.ServerState, s: S.StreamId,
                               answer: string)
    requires agent.away
    requires ':' !in answer && '|' !in answer && '|' !in agent.nickname
    requires answer !in server.clients && server.peer.None?
    ensures var notice := answer + "|" + C.AwayMessage + "|" + agent.nickname;
      && C.Listen(agent, [Received(Make(Data, answer))]).sent == agent.sent + [Make(Dm, notice)]
      && S.Dispatch(server, s, Received(Make(Dm, notice)), S.None).outcome == S.Panic
  {
    assert FirstField(answer, ':') == answer;
    assert '|' !in C.AwayMessage;
    SplitThree(answer, C.AwayMessage, agent.nickname, '|');
  }
}
