/**
 What the pairing core guarantees, stated over the step functions of module
 `Converse`: the single waiting slot, the exact notices of each operation,
 the session map's pairing invariant and when it survives, the dispatch of
 `on_message`, and whole conversations.
 */
module ConverseProperties {
  import opened Converse

  // ---------------------------------------------------------------------------
  // Invariants of the state.

  /** Every session entry `c -> (_, d)` has its partner `d -> (_, c)`. */
  ghost predicate Symmetric(o: map<ChannelId, OngoingChat>) {
    forall c :: c in o ==> o[c].outputChannel in o && o[o[c].outputChannel].outputChannel == c
  }

  /** No channel is paired with itself. */
  ghost predicate NoSelfLoop(o: map<ChannelId, OngoingChat>) {
    forall c :: c in o ==> o[c].outputChannel != c
  }

  /** `c` neither waits nor takes part in a session. */
  ghost predicate Idle(s: BotState, c: ChannelId) {
    c !in s.ongoing && forall p :: p in s.pending ==> p.inputChannel != c
  }

  /** The pairing invariant: one waiting slot, sessions as pairs of two
      distinct channels, and no channel both waiting and in a session. */
  ghost predicate WellFormed(s: BotState) {
    && |s.pending| <= 1
    && Symmetric(s.ongoing)
    && NoSelfLoop(s.ongoing)
    && forall p :: p in s.pending ==> p.inputChannel !in s.ongoing
  }

  // ---------------------------------------------------------------------------
  // start

  /** With nobody waiting, `start` occupies the slot and posts one notice. */
  lemma StartWaits(s: BotState, input: ChannelId, name: string)
    requires s.pending == {}
    ensures StartStep(s, input, name).after.pending == {PendingChat(name, input)}
    ensures StartStep(s, input, name).after.ongoing == s.ongoing
    ensures StartStep(s, input, name).notices
            == multiset{Notice(input, "[=] Hello " + name + ". Hang on while we find a user.")}
  {
  }

  /** With a waiter, `start` empties the slot, writes the two session entries
      (each holding its own channel's pseudonym), leaves every other entry
      alone, and greets both sides. */
  lemma StartMatches(s: BotState, input: ChannelId, name: string, anonName: string, output: ChannelId)
    requires s.pending == {PendingChat(anonName, output)}
    ensures var after := StartStep(s, input, name).after;
      && after.pending == {}
      && after.ongoing.Keys == s.ongoing.Keys + {input, output}
      && after.ongoing[input] == OngoingChat(name, output)
      && (output != input ==> after.ongoing[output] == OngoingChat(anonName, input))
      && forall k :: k in s.ongoing && k != input && k != output ==> after.ongoing[k] == s.ongoing[k]
    ensures StartStep(s, input, name).notices
            == multiset{Notice(input, "[=] Hello " + name + ". You are connected to " + anonName + "."),
                        Notice(output, "[=] " + name + " connected.")}
  {
    var w := Waiter(s.pending);
    assert w in {PendingChat(anonName, output)};
  }

  /** The waiting slot never holds more than one requester. */
  lemma PendingStaysSingle(s: BotState, botId: UserId, msg: Message, dm: ChannelId, name: string)
    requires |s.pending| <= 1
    ensures |Handle(s, botId, msg, dm, name).after.pending| <= 1
    ensures Handle(s, botId, msg, dm, name).after.pending != s.pending
            ==> Dispatch(botId, s.ongoing, msg) == RunStart
  {
  }

  /** A second `start` from the channel already waiting matches it with
      itself: the second write overwrites the first, leaving a self-paired
      entry, and a later `stop` removes it but replies "No ongoing chat.". */
  lemma SelfMatch(s: BotState, c: ChannelId, first: string, second: string)
    requires s.pending == {PendingChat(first, c)}
    ensures var st := StartStep(s, c, second);
      && st.after.pending == {}
      && st.after.ongoing == s.ongoing[c := OngoingChat(second, c)]
      && st.notices == multiset{Notice(c, GreetingText(second, first)), Notice(c, ConnectedText(second))}
      && StopStep(st.after, c) == Step(BotState({}, s.ongoing - {c}), multiset{Notice(c, NoChatText)})
  {
    StartMatches(s, c, second, first, c);
    var o := StartStep(s, c, second).after.ongoing;
    assert o == s.ongoing[c := OngoingChat(second, c)];
    assert o - {c} == s.ongoing - {c};
  }

  // ---------------------------------------------------------------------------
  // stop

  /** Stopping one side of a two-channel session removes exactly that pair,
      keeps the waiting set, and tells both sides. */
  lemma StopEndsSession(s: BotState, c: ChannelId)
    requires Symmetric(s.ongoing)
    requires c in s.ongoing && s.ongoing[c].outputChannel != c
    ensures var peer := s.ongoing[c].outputChannel;
      && StopStep(s, c).after == BotState(s.pending, s.ongoing - {c, peer})
      && StopStep(s, c).notices
         == multiset{Notice(c, "[=] You have disconnected from chat."),
                     Notice(peer, "[=] " + s.ongoing[c].name + " have disconnected.")}
  {
    var peer := s.ongoing[c].outputChannel;
    assert peer in s.ongoing - {c};
    assert s.ongoing - {c} - {peer} == s.ongoing - {c, peer};
  }

  /** `stop` from a channel with no session changes nothing (a waiting
      channel stays waiting) and only replies "No ongoing chat.". */
  lemma StopWithoutSession(s: BotState, c: ChannelId)
    requires c !in s.ongoing
    ensures StopStep(s, c) == Step(s, multiset{Notice(c, "[=] No ongoing chat.")})
  {
  }

  /** Whatever the first `stop` did, a second one from the same channel
      changes nothing and replies "No ongoing chat.". */
  lemma StopTwice(s: BotState, c: ChannelId)
    ensures var first := StopStep(s, c).after;
      && c !in first.ongoing
      && StopStep(first, c) == Step(first, multiset{Notice(c, NoChatText)})
  {
  }

  /** Two sides of a session stopping one after the other: the first gets
      the disconnect and its peer is told, the second gets "No ongoing chat."
      and nothing changes a second time. */
  lemma StopBothSides(s: BotState, a: ChannelId)
    requires Symmetric(s.ongoing) && NoSelfLoop(s.ongoing)
    requires a in s.ongoing
    ensures var b := s.ongoing[a].outputChannel;
      var first := StopStep(s, a);
      var second := StopStep(first.after, b);
      && first.notices == multiset{Notice(a, DisconnectedText), Notice(b, PeerLeftText(s.ongoing[a].name))}
      && second == Step(first.after, multiset{Notice(b, NoChatText)})
      && a !in second.after.ongoing && b !in second.after.ongoing
  {
    StopEndsSession(s, a);
  }

  // ---------------------------------------------------------------------------
  // The pairing invariant.

  /** A `start` from an idle channel, while the waiter (if any) is in no
      session, keeps the session map symmetric. */
  lemma StartKeepsSymmetric(s: BotState, input: ChannelId, name: string)
    requires |s.pending| <= 1 && Symmetric(s.ongoing)
    requires Idle(s, input)
    requires forall p :: p in s.pending ==> p.inputChannel !in s.ongoing
    ensures Symmetric(StartStep(s, input, name).after.ongoing)
  {
    if s.pending != {} {
      var w := Waiter(s.pending);
      var o := StartStep(s, input, name).after.ongoing;
      assert w in s.pending;
      forall c | c in o
        ensures o[c].outputChannel in o && o[o[c].outputChannel].outputChannel == c
      {
        if c != input && c != w.inputChannel {
          var d := s.ongoing[c].outputChannel;
          assert d != input && d != w.inputChannel;
        }
      }
    }
  }

  /** `stop` always keeps the session map symmetric. */
  lemma StopKeepsSymmetric(s: BotState, c: ChannelId)
    requires Symmetric(s.ongoing)
    ensures Symmetric(StopStep(s, c).after.ongoing)
  {
    if c in s.ongoing {
      var peer := s.ongoing[c].outputChannel;
      var o := StopStep(s, c).after.ongoing;
      forall k | k in o
        ensures o[k].outputChannel in o && o[o[k].outputChannel].outputChannel == k
      {
        var d := s.ongoing[k].outputChannel;
        assert s.ongoing[d].outputChannel == k;
        assert d != c && d != peer;
      }
    }
  }

  /** `start` from an idle channel keeps the pairing invariant. */
  lemma StartKeepsWellFormed(s: BotState, input: ChannelId, name: string)
    requires WellFormed(s) && Idle(s, input)
    ensures WellFormed(StartStep(s, input, name).after)
  {
    StartKeepsSymmetric(s, input, name);
    if s.pending != {} {
      var w := Waiter(s.pending);
      assert w in s.pending;
    }
  }

  /** `stop` keeps the pairing invariant. */
  lemma StopKeepsWellFormed(s: BotState, c: ChannelId)
    requires WellFormed(s)
    ensures WellFormed(StopStep(s, c).after)
  {
    StopKeepsSymmetric(s, c);
  }

  /** Every message keeps the pairing invariant, provided a `++start` comes
      from an idle channel. */
  lemma HandleKeepsWellFormed(s: BotState, botId: UserId, msg: Message, dm: ChannelId, name: string)
    requires WellFormed(s)
    requires Dispatch(botId, s.ongoing, msg) == RunStart ==> Idle(s, dm)
    ensures WellFormed(Handle(s, botId, msg, dm, name).after)
  {
    match Dispatch(botId, s.ongoing, msg)
    case RunStart => StartKeepsWellFormed(s, dm, name);
    case RunStop => StopKeepsWellFormed(s, msg.channelId);
    case _ =>
  }

  // ---------------------------------------------------------------------------
  // on_message and chat

  /** The bot's own messages are ignored. */
  lemma IgnoresOwnMessages(s: BotState, botId: UserId, msg: Message, dm: ChannelId, name: string)
    requires |s.pending| <= 1 && msg.authorId == botId
    ensures Handle(s, botId, msg, dm, name) == Step(s, multiset{})
  {
  }

  /** The two commands run even from a channel inside a session. */
  lemma CommandsAlwaysRun(s: BotState, botId: UserId, msg: Message, dm: ChannelId, name: string)
    requires |s.pending| <= 1 && msg.authorId != botId
    ensures msg.content == "++start" ==> Handle(s, botId, msg, dm, name) == StartStep(s, dm, name)
    ensures msg.content == "++stop" ==> Handle(s, botId, msg, dm, name) == StopStep(s, msg.channelId)
  {
  }

  /** Any other content is relayed, under the sender's own pseudonym, to the
      peer of a channel in a session, and dropped from any other channel. */
  lemma OtherContentRelayedOrDropped(s: BotState, botId: UserId, msg: Message, dm: ChannelId, name: string)
    requires |s.pending| <= 1 && msg.authorId != botId
    requires msg.content != "++start" && msg.content != "++stop"
    ensures Handle(s, botId, msg, dm, name).after == s
    ensures msg.channelId in s.ongoing ==>
      Handle(s, botId, msg, dm, name).notices
      == multiset{Notice(s.ongoing[msg.channelId].outputChannel,
                         s.ongoing[msg.channelId].name + ": " + msg.content)}
    ensures msg.channelId !in s.ongoing ==> Handle(s, botId, msg, dm, name).notices == multiset{}
  {
  }

  /** The relayed text keeps the content exactly: it is the sender's
      pseudonym, a colon and a space, then the content untouched. */
  lemma RelayKeepsContent(name: string, content: string)
    ensures var t := RelayText(name, content);
      && |t| == |name| + 2 + |content|
      && t[..|name|] == name
      && t[|name|..|name| + 2] == ": "
      && t[|name| + 2..] == content
  {
  }

  // ---------------------------------------------------------------------------
  // Whole conversations.

  /** Once paired, each side's messages reach the other side, signed with
      the sender's own pseudonym. */
  lemma MatchedSidesRelay(s: BotState, input: ChannelId, name: string, anonName: string,
                          output: ChannelId, content: string)
    requires s.pending == {PendingChat(anonName, output)} && input != output
    ensures var after := StartStep(s, input, name).after;
      && ChatStep(after, input, content).notices == multiset{Notice(output, RelayText(name, content))}
      && ChatStep(after, output, content).notices == multiset{Notice(input, RelayText(anonName, content))}
  {
    StartMatches(s, input, name, anonName, output);
  }

  /** A starts and waits, B starts and is paired with A, A says something
      and only B hears it, B stops and both are told; afterwards the state
      is exactly what it was before A started. */
  lemma Conversation(s: BotState, a: ChannelId, b: ChannelId, nameA: string, nameB: string, hi: string)
    requires s.pending == {} && a != b && a !in s.ongoing && b !in s.ongoing
    ensures var s1 := StartStep(s, a, nameA);
      var s2 := StartStep(s1.after, b, nameB);
      var s4 := StopStep(s2.after, b);
      && s1.notices == multiset{Notice(a, WaitingText(nameA))}
      && s2.notices == multiset{Notice(b, GreetingText(nameB, nameA)), Notice(a, ConnectedText(nameB))}
      && ChatStep(s2.after, a, hi).notices == multiset{Notice(b, RelayText(nameA, hi))}
      && s4.notices == multiset{Notice(b, DisconnectedText), Notice(a, PeerLeftText(nameB))}
      && s4.after == s
  {
    var s1 := StartStep(s, a, nameA);
    StartMatches(s1.after, b, nameB, nameA, a);
    var o := StartStep(s1.after, b, nameB).after.ongoing;
    assert o == s.ongoing[a := OngoingChat(nameA, b)][b := OngoingChat(nameB, a)];
    assert o - {b} - {a} == s.ongoing;
  }
}

/**
 Runs of the bot: `on_message` applied to one event after another, as the
 event loop delivers them when handlers run one at a time.
 */
module ConverseRuns {
  import opened Converse
  import opened ConverseProperties

  /** One inbound message with the values the network would supply while
      handling it: the author's direct-message channel and a fresh pseudonym. */
  datatype Event = Event(msg: Message, dm: ChannelId, name: string)

  /** The state after handling `events` in order, and every notice posted. */
  ghost function Run(s: BotState, botId: UserId, events: seq<Event>): (r: Step)
    requires |s.pending| <= 1
    ensures |r.after.pending| <= 1
    decreases |events|
  {
    if events == [] then Step(s, multiset{})
    else
      var e := events[0];
      var first := Handle(s, botId, e.msg, e.dm, e.name);
      var rest := Run(first.after, botId, events[1..]);
      Step(rest.after, first.notices + rest.notices)
  }

  /** Every `++start` in the run comes from a channel that is idle when it
      is handled. */
  ghost predicate StartsFromIdle(s: BotState, botId: UserId, events: seq<Event>)
    requires |s.pending| <= 1
    decreases |events|
  {
    events != [] ==>
      var e := events[0];
      && (Dispatch(botId, s.ongoing, e.msg) == RunStart ==> Idle(s, e.dm))
      && StartsFromIdle(Handle(s, botId, e.msg, e.dm, e.name).after, botId, events[1..])
  }

  /** Over any run whose starts come from idle channels, the pairing
      invariant holds after every message. */
  lemma {:induction false} RunKeepsWellFormed(s: BotState, botId: UserId, events: seq<Event>)
    requires WellFormed(s) && StartsFromIdle(s, botId, events)
    ensures WellFormed(Run(s, botId, events).after)
    decreases |events|
  {
    if events != [] {
      var e := events[0];
      HandleKeepsWellFormed(s, botId, e.msg, e.dm, e.name);
      RunKeepsWellFormed(Handle(s, botId, e.msg, e.dm, e.name).after, botId, events[1..]);
    }
  }

  /** A run without `++start` never adds a waiter: the waiting set only
      stays the same. */
  lemma {:induction false} RunWithoutStartKeepsPending(s: BotState, botId: UserId, events: seq<Event>)
    requires |s.pending| <= 1
    requires forall i :: 0 <= i < |events| ==> events[i].msg.content != StartCommand
    ensures Run(s, botId, events).after.pending == s.pending
    decreases |events|
  {
    if events != [] {
      var e := events[0];
      PendingStaysSingle(s, botId, e.msg, e.dm, e.name);
      RunWithoutStartKeepsPending(Handle(s, botId, e.msg, e.dm, e.name).after, botId, events[1..]);
    }
  }

  /** A run without commands changes no state at all: chats only read it. */
  lemma {:induction false} RunWithoutCommandsChangesNothing(s: BotState, botId: UserId, events: seq<Event>)
    requires |s.pending| <= 1
    requires forall i :: 0 <= i < |events| ==>
      events[i].msg.content != StartCommand && events[i].msg.content != StopCommand
    ensures Run(s, botId, events).after == s
    decreases |events|
  {
    if events != [] {
      var e := events[0];
      assert Handle(s, botId, e.msg, e.dm, e.name).after == s;
      RunWithoutCommandsChangesNothing(s, botId, events[1..]);
    }
  }

  /** Messages from the bot itself never change anything or post anything,
      however many arrive. */
  lemma {:induction false} RunOfOwnMessages(s: BotState, botId: UserId, events: seq<Event>)
    requires |s.pending| <= 1
    requires forall i :: 0 <= i < |events| ==> events[i].msg.authorId == botId
    ensures Run(s, botId, events) == Step(s, multiset{})
    decreases |events|
  {
    if events != [] {
      var e := events[0];
      IgnoresOwnMessages(s, botId, e.msg, e.dm, e.name);
      RunOfOwnMessages(s, botId, events[1..]);
    }
  }
}
