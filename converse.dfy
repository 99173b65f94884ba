/**
 The pairing and relay core of the converse bot: strangers ask to chat with
 `++start`, wait in a single slot until a second stranger asks, are then paired
 under pseudonyms, relay messages to each other, and leave with `++stop`.

 The network (opening a direct-message channel, posting a message), the random
 pseudonym source and the thread pool are outside the model: their results are
 parameters, and every message the bot would post is returned as a `Notice`.
 */
module Converse {

  type ChannelId = string
  type UserId = string

  /** A requester waiting to be matched: its pseudonym and its own channel. */
  datatype PendingChat = PendingChat(name: string, inputChannel: ChannelId)

  /** The session entry stored under a channel: that channel's OWN pseudonym
      and the channel of its peer. */
  datatype OngoingChat = OngoingChat(name: string, outputChannel: ChannelId)

  /** An inbound message-create event. */
  datatype Message = Message(authorId: UserId, channelId: ChannelId, content: string)

  /** A message the bot posts to a channel. */
  datatype Notice = Notice(channel: ChannelId, text: string)

  // ---------------------------------------------------------------------------
  // The exact texts the bot posts.

  const StartCommand: string := "++start"
  const StopCommand: string := "++stop"

  function WaitingText(name: string): (text: string) {
    "[=] Hello " + name + ". Hang on while we find a user."
  }

  function GreetingText(name: string, peerName: string): (text: string) {
    "[=] Hello " + name + ". You are connected to " + peerName + "."
  }

  function ConnectedText(name: string): (text: string) {
    "[=] " + name + " connected."
  }

  const DisconnectedText: string := "[=] You have disconnected from chat."

  function PeerLeftText(name: string): (text: string) {
    "[=] " + name + " have disconnected."
  }

  const NoChatText: string := "[=] No ongoing chat."

  function RelayText(name: string, content: string): (text: string) {
    name + ": " + content
  }

  // ---------------------------------------------------------------------------
  // The bot's state as a value, and what each operation does to it.

  datatype BotState = BotState(pending: set<PendingChat>, ongoing: map<ChannelId, OngoingChat>)

  /** The outcome of one operation: the new state and the notices it posts,
      as a multiset because the two sends of a match or a disconnect are
      issued in parallel with no order between them. */
  datatype Step = Step(after: BotState, notices: multiset<Notice>)

  /** The one waiting requester when the waiting set holds exactly one. */
  ghost function Waiter(pending: set<PendingChat>): (w: PendingChat)
    requires |pending| == 1
    ensures pending == {w}
  {
    var w :| w in pending;
    assert |pending - {w}| == 0;
    assert pending - {w} == {};
    w
  }

  /** `start` from `input`, whose fresh pseudonym is `name`: either wait in
      the empty slot, or take the waiter out of it and write both session
      entries. */
  ghost function StartStep(s: BotState, input: ChannelId, name: string): (r: Step)
    requires |s.pending| <= 1
  {
    if s.pending == {} then
      Step(s.(pending := {PendingChat(name, input)}),
           multiset{Notice(input, WaitingText(name))})
    else
      var w := Waiter(s.pending);
      Step(BotState({}, s.ongoing[w.inputChannel := OngoingChat(w.name, input)]
                                 [input := OngoingChat(name, w.inputChannel)]),
           multiset{Notice(input, GreetingText(name, w.name)),
                    Notice(w.inputChannel, ConnectedText(name))})
  }

  /** `stop` from channel `c`: remove `c`'s entry, then its peer's; when
      either removal finds no entry, reply that there is no chat (keeping
      the first removal if it happened). The waiting set is never touched. */
  ghost function StopStep(s: BotState, c: ChannelId): (r: Step) {
    if c !in s.ongoing then
      Step(s, multiset{Notice(c, NoChatText)})
    else
      var user := s.ongoing[c];
      var rest := s.ongoing - {c};
      if user.outputChannel !in rest then
        Step(s.(ongoing := rest), multiset{Notice(c, NoChatText)})
      else
        Step(s.(ongoing := rest - {user.outputChannel}),
             multiset{Notice(c, DisconnectedText),
                      Notice(user.outputChannel, PeerLeftText(user.name))})
  }

  /** `chat` from channel `c`: relay to the peer under `c`'s own pseudonym;
      a channel with no session raises a lookup error inside the handler,
      which the handler wrapper swallows, so nothing is posted. */
  ghost function ChatStep(s: BotState, c: ChannelId, content: string): (r: Step) {
    if c in s.ongoing then
      Step(s, multiset{Notice(s.ongoing[c].outputChannel, RelayText(s.ongoing[c].name, content))})
    else
      Step(s, multiset{})
  }

  /** Which handler `on_message` runs for a message. */
  datatype Handler = SelfEcho | RunStart | RunStop | RunChat | Dropped

  function Dispatch(botId: UserId, ongoing: map<ChannelId, OngoingChat>, msg: Message): (h: Handler)
    ensures h == SelfEcho <==> msg.authorId == botId
    ensures h == RunStart <==> msg.authorId != botId && msg.content == StartCommand
    ensures h == RunStop <==> msg.authorId != botId && msg.content == StopCommand
    ensures h == RunChat <==> msg.authorId != botId && msg.content != StartCommand
                              && msg.content != StopCommand && msg.channelId in ongoing
    ensures h == Dropped <==> msg.authorId != botId && msg.content != StartCommand
                              && msg.content != StopCommand && msg.channelId !in ongoing
  {
    if msg.authorId == botId then SelfEcho
    else if msg.content == StartCommand then RunStart
    else if msg.content == StopCommand then RunStop
    else if msg.channelId in ongoing then RunChat
    else Dropped
  }

  /** `on_message` on a message `msg`; `dm` is the requester's direct-message
      channel and `name` the fresh pseudonym, both used only by `start`. */
  ghost function Handle(s: BotState, botId: UserId, msg: Message, dm: ChannelId, name: string): (r: Step)
    requires |s.pending| <= 1
  {
    match Dispatch(botId, s.ongoing, msg)
    case SelfEcho => Step(s, multiset{})
    case RunStart => StartStep(s, dm, name)
    case RunStop => StopStep(s, msg.channelId)
    case RunChat => ChatStep(s, msg.channelId, msg.content)
    case Dropped => Step(s, multiset{})
  }

  // ---------------------------------------------------------------------------
  // The bot, updating its waiting set and session map in place.

  class Bot {
    const botId: UserId
    /** Requesters waiting to be matched. */
    var pending: set<PendingChat>
    /** Session entries, keyed by the channel that sends. */
    var ongoing: map<ChannelId, OngoingChat>

    /** The waiting room is a single slot. */
    ghost predicate Valid()
      reads this
    {
      |pending| <= 1
    }

    ghost function State(): BotState
      reads this
    {
      BotState(pending, ongoing)
    }

    constructor (botId: UserId)
      ensures Valid()
      ensures this.botId == botId && pending == {} && ongoing == map[]
    {
      this.botId := botId;
      pending := {};
      ongoing := map[];
    }

    method Start(inputChannel: ChannelId, name: string) returns (notices: seq<Notice>)
      requires Valid()
      modifies this
      ensures Valid()
      ensures State() == StartStep(old(State()), inputChannel, name).after
      ensures multiset(notices) == StartStep(old(State()), inputChannel, name).notices
    {
      if pending == {} {
        pending := pending + {PendingChat(name, inputChannel)};
        notices := [Notice(inputChannel, WaitingText(name))];
        return;
      }
      var waiter :| waiter in pending;
      ghost var w := Waiter(pending);
      assert waiter == w;
      pending := pending - {waiter};
      ongoing := ongoing[waiter.inputChannel := OngoingChat(waiter.name, inputChannel)];
      ongoing := ongoing[inputChannel := OngoingChat(name, waiter.inputChannel)];
      notices := [Notice(inputChannel, GreetingText(name, waiter.name)),
                  Notice(waiter.inputChannel, ConnectedText(name))];
    }

    method Stop(channel: ChannelId) returns (notices: seq<Notice>)
      modifies this
      ensures pending == old(pending)
      ensures State() == StopStep(old(State()), channel).after
      ensures multiset(notices) == StopStep(old(State()), channel).notices
    {
      if channel !in ongoing {
        notices := [Notice(channel, NoChatText)];
        return;
      }
      var user := ongoing[channel];
      ongoing := ongoing - {channel};
      if user.outputChannel !in ongoing {
        notices := [Notice(channel, NoChatText)];
        return;
      }
      ongoing := ongoing - {user.outputChannel};
      notices := [Notice(channel, DisconnectedText),
                  Notice(user.outputChannel, PeerLeftText(user.name))];
    }

    /** Relays `content` from `channel` to its peer; changes no state. */
    method Chat(channel: ChannelId, content: string) returns (notices: seq<Notice>)
      ensures channel in ongoing ==>
        notices == [Notice(ongoing[channel].outputChannel, RelayText(ongoing[channel].name, content))]
      ensures channel !in ongoing ==> notices == []
      ensures multiset(notices) == ChatStep(State(), channel, content).notices
    {
      if channel !in ongoing {
        notices := [];
        return;
      }
      var chat := ongoing[channel];
      notices := [Notice(chat.outputChannel, RelayText(chat.name, content))];
    }

    method OnMessage(msg: Message, dm: ChannelId, name: string) returns (notices: seq<Notice>)
      requires Valid()
      modifies this
      ensures Valid()
      ensures State() == Handle(old(State()), botId, msg, dm, name).after
      ensures multiset(notices) == Handle(old(State()), botId, msg, dm, name).notices
    {
      var handler := Dispatch(botId, ongoing, msg);
      match handler
      case SelfEcho =>
        notices := [];
      case RunStart =>
        notices := Start(dm, name);
      case RunStop =>
        notices := Stop(msg.channelId);
      case RunChat =>
        notices := Chat(msg.channelId, msg.content);
      case Dropped =>
        notices := [];
    }
  }
}
