# converse: pairing and relay core

converse is a chat bot that pairs two strangers into an anonymous one-to-one
conversation. A user sends `++start`. If nobody is waiting, the user takes the
single waiting slot under a fresh pseudonym. Otherwise the waiter is taken out
of the slot and the two are paired. Each side's messages are then relayed to
the other, prefixed with the sender's pseudonym. `++stop` ends the session and
tells both sides.

This project models the `Bot` class of `converse/__main__.py`:

- `converse.dfy` (module `Converse`) holds the records `PendingChat`,
  `OngoingChat`, `Message` and `Notice`, and the exact texts the bot posts.
  It gives each operation a specification as a step function on a state
  value `BotState`: `StartStep`, `StopStep`, `ChatStep` and `Handle` for
  `on_message`. It also holds the class `Bot`, whose `pending` set and
  `ongoing` map are updated in place by `Start`, `Stop` and `OnMessage`.
  `Chat` only reads them. Each method is proved against its step function.
- `properties.dfy` (modules `ConverseProperties` and `ConverseRuns`) holds the
  lemmas about the step functions:
  - the exact notices of each operation;
  - the single waiting slot;
  - the pairing invariant (sessions stored as symmetric pairs of distinct
    channels, and no channel both waiting and paired) and the conditions
    under which each operation keeps it;
  - `on_message` dispatch;
  - whole conversations;
  - runs of any number of messages handled one at a time.

The network calls are replaced by parameters. `get_dm` supplies the
requester's direct-message channel (`dm`), `random_name` supplies the fresh
pseudonym (`name`), and the bot's own user id is a constructor argument.
Each post the bot would make is returned as a `Notice(channel, text)`. The
two posts of a match or a disconnect go out in parallel with no order, so the
step functions give notices as a multiset.

The model follows the code as written, including behaviour a user may not
expect:

- `start` from a channel that is already waiting or already paired is not
  rejected. A waiter that starts again is matched with itself (`SelfMatch`).
- `stop` from a channel that is only waiting does not cancel its request.
  The channel stays in the slot and gets "No ongoing chat."
- The waiting room is the code's one-element set, not a FIFO queue.
- A session entry stores the key channel's OWN pseudonym and the peer's
  channel, not the peer's pseudonym. `chat` signs each relayed message with
  that own pseudonym.
- `stop` uses the channel the message arrived on. `start` uses the
  direct-message channel opened for the author.
- When a match is made, the requester is told "Hello {name}. You are
  connected to {peer}." and the waiter is told "{name} connected."

## Model

| member | source | states |
|---|---|---|
| Converse.Bot.constructor | converse/__main__.py:26-39 | a new bot has no waiter and no sessions, and keeps the bot id it is given |
| Converse.Bot.Start | converse/__main__.py:57-74 | `start` keeps the waiting set at most one entry; the new waiting set, session map and the multiset of notices are those of `StartStep` |
| Converse.Bot.Stop | converse/__main__.py:76-89 | `stop` never changes the waiting set; the new session map and the notices are those of `StopStep` |
| Converse.Bot.Chat | converse/__main__.py:91-93 | a channel in a session gets exactly one notice, to its peer, reading "{own name}: {content}"; a channel with no session gets none (the lookup error is swallowed by the handler wrapper) |
| Converse.Bot.OnMessage | converse/__main__.py:95-107 | handling a message keeps the single waiting slot and moves state and notices exactly as `Handle` says |
| Converse.Dispatch | converse/__main__.py:95-107 | the handler is chosen by: own messages ignored; exact "++start"/"++stop" run the command; anything else runs `chat` if and only if the channel is a session key, and is dropped otherwise |
| Converse.Waiter | converse/__main__.py:61 | popping a one-element waiting set yields its only element, leaving it empty |
| ConverseProperties.StartWaits | converse/__main__.py:60-65 | with nobody waiting, `start` leaves `{(name, channel)}` waiting, keeps every session, and sends exactly "[=] Hello {name}. Hang on while we find a user." to the requester |
| ConverseProperties.StartMatches | converse/__main__.py:61-74 | with a waiter, `start` empties the slot, writes `ongoing[waiter] = (waiter's name, requester)` and `ongoing[requester] = (name, waiter)`, leaves every other entry unchanged, and sends the greeting to the requester and "[=] {name} connected." to the waiter |
| ConverseProperties.PendingStaysSingle | converse/__main__.py:61-63 | no message ever leaves more than one waiter, and only `++start` changes the waiting set |
| ConverseProperties.SelfMatch | converse/__main__.py:61-84 | a waiter that starts again is paired with itself, gets both greetings, and a later `stop` removes the entry but replies "[=] No ongoing chat." |
| ConverseProperties.StopEndsSession | converse/__main__.py:76-89 | for a symmetric session map and a channel paired with another, `stop` removes exactly that channel and its peer, keeps the waiting set, and sends "[=] You have disconnected from chat." to it and "[=] {its name} have disconnected." to the peer |
| ConverseProperties.StopWithoutSession | converse/__main__.py:79-84 | `stop` from a channel with no session changes nothing (a waiter stays waiting) and only replies "[=] No ongoing chat." |
| ConverseProperties.StopTwice | converse/__main__.py:79-84 | after any `stop`, a second `stop` from the same channel changes nothing and replies "[=] No ongoing chat." |
| ConverseProperties.StopBothSides | converse/__main__.py:76-89 | when both sides of a session stop one after the other, the first gets the disconnect pair of notices and the second only "No ongoing chat.", with neither left in a session |
| ConverseProperties.StartKeepsSymmetric | converse/__main__.py:67-68 | a `start` from a channel neither waiting nor paired, while the waiter is not paired, keeps every `c -> (_, d)` matched by `d -> (_, c)` |
| ConverseProperties.StopKeepsSymmetric | converse/__main__.py:80-81 | `stop` always keeps the session map symmetric |
| ConverseProperties.StartKeepsWellFormed | converse/__main__.py:57-74 | a `start` from an idle channel keeps one waiter at most, symmetric pairs of distinct channels, and no channel both waiting and paired |
| ConverseProperties.StopKeepsWellFormed | converse/__main__.py:76-89 | `stop` keeps that same invariant |
| ConverseProperties.HandleKeepsWellFormed | converse/__main__.py:95-107 | every message keeps the invariant, provided a `++start` comes from an idle channel |
| ConverseProperties.IgnoresOwnMessages | converse/__main__.py:96-97 | a message authored by the bot changes nothing and posts nothing |
| ConverseProperties.CommandsAlwaysRun | converse/__main__.py:36-39 | content exactly "++start" or "++stop" runs that command, even from a channel in a session |
| ConverseProperties.OtherContentRelayedOrDropped | converse/__main__.py:99-107 | other content never changes state; it is relayed as "{own name}: {content}" to the peer when the channel is a session key, and otherwise posts nothing |
| ConverseProperties.RelayKeepsContent | converse/__main__.py:93 | the relayed text is the pseudonym, ": ", then the content unaltered, so the content can be read back from it |
| ConverseProperties.MatchedSidesRelay | converse/__main__.py:67-68 | right after a match of two distinct channels, each side's chat reaches the other side, signed with the sender's own pseudonym |
| ConverseProperties.Conversation | converse/__main__.py:57-93 | A starts and waits, B is paired with A, A's message reaches only B, B stops and both are told; the state ends exactly as it began |
| ConverseRuns.Run | converse/__main__.py:95-107 | handling any sequence of messages one at a time never leaves more than one waiter |
| ConverseRuns.RunKeepsWellFormed | converse/__main__.py:57-107 | over any run whose `++start` messages come from idle channels, every state keeps one waiter at most, symmetric pairs of distinct channels, and no channel both waiting and paired |
| ConverseRuns.RunWithoutStartKeepsPending | converse/__main__.py:76-107 | a run with no `++start` leaves the waiting set exactly as it was: `stop` and `chat` never touch it |
| ConverseRuns.RunWithoutCommandsChangesNothing | converse/__main__.py:91-107 | a run with no command changes no state: relaying and dropping only read it |
| ConverseRuns.RunOfOwnMessages | converse/__main__.py:96-97 | any number of the bot's own messages change nothing and post nothing |

## Left out

- The HTTP calls through the platform client (`get_dm`, `send` and the
  bot-id lookup in the constructor) are network I/O. Their results are
  parameters and their effects are the returned notices. A failing `get_dm`
  aborts `start` before any state change. A failing `send` happens after the
  state change and only loses that notice, which the model still returns.
- The thread pool, the parallel sends of `send_multiple` and `executor.submit`
  are concurrency. Handlers run one at a time to completion, so the race
  between the membership check in `on_message` and the lookup in `chat`
  is not modelled. The only trace of it is that `Chat` on a channel with
  no session posts nothing.
- The `call` wrapper swallows and logs every exception. Logging is left out.
- `random_name` lives in `converse/names`, which is not part of this model.
  Each call's pseudonym is a parameter, so name collisions are not excluded.
- `run`, process bootstrap and the unused local `message` in `start` do
  nothing to the pairing state.
- Converse.Bot.Start, Converse.Bot.Stop, Converse.Bot.OnMessage: the returned
  sequence fixes one order for the two notices of a match or a disconnect.
  The contracts compare the notices only as a multiset, because the source
  sends them in parallel with no order.
- ConverseProperties.StopBothSides: covers two stops handled one after the
  other. Under the thread pool, both handlers can remove their own entry
  before either removes its peer's. Both sides then get "[=] No ongoing
  chat." and nobody gets the disconnect notices. That interleaving is
  concurrency and is not modelled.
