# zmq_irc bridge: a Dafny model of its bookkeeping

The bridge keeps IRC connections open for several users at once. It publishes
every IRC event as a record on a ZeroMQ push socket (the event bus) and takes
control commands (`connect`, `join`, `msg`, `action`, `names`) from a ZeroMQ
pull socket. The repository holds two generations of the bridge:

- `zmq-irc/client.py`, the later one, modelled by the `ZmqIrc*` modules;
- `client.py`, the older one, modelled by the `Hashi*` modules.

This project models their sequential bookkeeping and proves its properties.
Both bridges have an event publisher, a session registry, controller routing
and a channel list; only the later one has a NAMES request table and a
sequence counter:

- **Event publisher.** A later-bridge publisher keeps a counter. Every `event`
  call bumps it by one and stamps the record `[email, str(id), network,
  identity, kind, timestamp, args...]` with it. The older publisher keeps no
  counter and sends `[network, identity, kind, args...]`. Both rewrite every
  text element to its UTF-8 bytes in an in-place loop before sending.
- **NAMES request table** (later bridge only). `NamesIRCClient` keeps a table
  from the lower-cased channel to (waiters, accumulated nicknames). The table
  changes on `names`, `RPL_NAMREPLY` and `RPL_ENDOFNAMES`.
- **Session registry.** `clients` is a map from user to network to session,
  and a lookup of an unknown user inserts an empty inner map.
- **Controller routing.** `messageReceived` is modelled as a pure decision
  (`Route`) followed by the effects of that decision on one session.
- **Channel list.** `signedOn` resets it, `joined` appends, `left` removes.

## How the model is built

- **Sessions, publishers and sockets** are classes whose fields the methods
  update. The bus and each socket are an `Outbox` holding everything sent on
  it, in order.
- **IRC library calls** (`join`, `msg`, `ctcpMakeQuery`, `topic`, `sendLine`)
  are appended to the session's `wire` log as `Irc.Request` values.
- **Deferreds** are waiter numbers issued by a counter. Firing one appends a
  `Resolution` to the session's `fired` log. The `got_names` callback attached
  to a waiter runs inside the `RPL_ENDOFNAMES` loop and publishes `names`.
- **Timestamps** (`str(time.time())`) are an opaque byte-string parameter
  `now`, one per handler call.
- **Exceptions** a handler would raise become `Failure` values or a `false`
  status, not preconditions, with the one exception listed under "Left out"
  (`joined` and `left` require a publisher):
  - `ValueError`, `IndexError` and `TypeError` on too few or too many frames
    or arguments (the unpacking `user, server = message[:2]`, the unpacking
    of the four `connect` arguments, `message[2]`, `command_args[0]`, a `join`
    call without arguments): `Malformed`;
  - `KeyError` on an unknown network: `UnknownNetwork`;
  - an attribute looked up on the user's whole map: `NotASession`;
  - a session without a publisher yet: `NotSignedOn`;
  - an unassigned name: `UndefinedName`.
- **Arguments are read in the order the source reads them.** So the same
  message can fail differently in the two bridges
  (`HashiController.RouteGlobalMsgDiffers`).
- **Python 2 strings:**
  - Literals of the bridge's own code are byte strings (`Literal`).
  - Strings from IRC and from the bus are byte strings in the source, which
    the UTF-8 pass leaves alone. The model holds them as the text they
    decode to. For well-formed UTF-8 this puts the very same bytes on the
    wire (`Values.IncomingAsText`). Ill-formed input is not represented (see
    "Left out").
  - `lower()` is ASCII-only, as on a byte string.
  - `if ssl:` on a value from the bus is string truthiness (`Truthy`).

The model follows the code where it behaves differently from what one might
expect of such a bridge:

- **Sequence numbers.** Each session has its own publisher. Its counter
  starts at 0 on every sign-on, so the numbers restart, and two networks of
  one user each count on their own. There is no per-user sequence.
- **Removing an absent channel.** In the older bridge it raises, and nothing
  is published. In the later bridge `left` always raises (see Findings).
- **Commands to "global".** The comment at zmq-irc/client.py:179 (and
  client.py:123) says the subject then means all servers. The subject is the
  user's dict, though, and looking up a session method on it fails, so
  nothing is broadcast.
- **Message length.** `500 - len(target)` is only passed as the `length`
  argument of the library's `msg`. The text that is published is the
  original.
- **Concurrent `names` requests.** A `NAMES` line goes out on every call.
  Only the waiters share one table entry and one result.
- **Reconnection.** `clientConnectionLost` only calls `connector.connect()`,
  which is I/O and is not modelled.

## Model

| member | source | states |
|---|---|---|
| Utf8.EncodeChar | zmq-irc/client.py:33-34 | a character's UTF-8 form is one to four bytes |
| Utf8.DecodeEncode | zmq-irc/client.py:32-34 | decoding the UTF-8 bytes of any text gives the text back, so the pass loses nothing |
| Utf8.EncodeDecode | zmq-irc/client.py:32-34 | a well-formed UTF-8 byte string is exactly the encoding of the text it decodes to |
| Utf8.EncodeInjective | client.py:26-28 | distinct texts get distinct bytes |
| Decimal.Render | zmq-irc/client.py:28 | `str(current_id)` is a non-empty run of ASCII digits without a leading zero |
| Decimal.ParseRender | zmq-irc/client.py:28 | reading the counter field back as a decimal gives the counter |
| Decimal.RenderInjective | zmq-irc/client.py:27-28 | different counter values never render to the same field |
| Values.EncodeValue | client.py:27-28 | an element after the pass is bytes; bytes are untouched; text becomes bytes that decode to it |
| Values.EncodeAllFacts | client.py:26-28 | the pass keeps the length and every position, leaves bytes alone, makes every text element bytes decoding to the same text, and is idempotent |
| Values.EncodeAllAppend | client.py:24-28 | the pass works element by element, so it commutes with `extend` |
| Values.IncomingAsText | client.py:26-28 | an incoming byte string that is well-formed UTF-8 goes on the wire unchanged, whether it is held as bytes or as the text it decodes to |
| Values.EncodeInPlace | client.py:26-28 | the `enumerate` loop rewrites the array in place into the element-wise encoding of its old contents |
| Bus.Outbox.constructor | zmq-irc/client.py:16-17 | a new push socket has sent nothing |
| Bus.Outbox.Send | zmq-irc/client.py:35 | a send appends one multipart message and keeps the earlier ones |
| ZmqIrcPublisher.Emitted | zmq-irc/client.py:26-35 | a run of `event` calls puts exactly one record per call on the bus |
| ZmqIrcPublisher.WireLayout | zmq-irc/client.py:28-34 | a record has 6 + args fields: email, the counter (readable back as a number), network, identity, kind, timestamp, then the args in order, each UTF-8 encoded |
| ZmqIrcPublisher.Gapless | zmq-irc/client.py:20-28 | starting from `initial_event`, the k-th record of a run carries `initial_event + k + 1`, so the numbers have no gaps |
| ZmqIrcPublisher.EmittedAppend | zmq-irc/client.py:26-35 | two runs of calls emit the records of the first run, then those of the second, numbered on from where the first stopped |
| ZmqIrcPublisher.NoDuplicates | zmq-irc/client.py:27-28 | no two records of one publisher carry the same sequence number |
| ZmqIrcPublisher.RemoteEventPublisher.constructor | zmq-irc/client.py:20-24 | a publisher starts with its counter at `initial_event` and the given email, network and identity |
| ZmqIrcPublisher.RemoteEventPublisher.Event | zmq-irc/client.py:26-35 | `event` bumps the counter by exactly one and appends one record stamped with the new value |
| HashiPublisher.WireLayout | client.py:23-28 | a record has 3 + args fields: network, identity, kind, then the args in order; every field is bytes |
| HashiPublisher.RemoteEventPublisher.constructor | client.py:17-21 | a publisher opens its own socket, on which nothing has been sent |
| HashiPublisher.RemoteEventPublisher.Event | client.py:23-29 | `event` appends one record `[network, identity, kind] + args` after the UTF-8 pass, with no sequence number and no timestamp |
| NamesTable.Lower | zmq-irc/client.py:43 | `.lower()` (also at lines 53 and 63) keeps the length, leaves no ASCII capital, and changes only ASCII capitals, each to its small letter |
| NamesTable.LowerIdempotent | zmq-irc/client.py:43 | lower-casing a channel that is already lower-cased changes nothing |
| NamesTable.Split | zmq-irc/client.py:54 | `split(' ')` yields at least one piece, and no piece contains a space |
| NamesTable.JoinSplit | zmq-irc/client.py:54 | joining the pieces with a space gives back the reply's nickname field |
| NamesTable.SplitJoin | zmq-irc/client.py:54 | splitting space-joined pieces that contain no space gives the pieces back |
| NamesTable.Register | zmq-irc/client.py:42-50 | `names` creates an empty entry for the lower-cased channel only when there is none, appends the waiter, and leaves the nicks and every other channel unchanged |
| NamesTable.Accumulate | zmq-irc/client.py:52-60 | `RPL_NAMREPLY` appends the split nicknames to the pending entry of the lower-cased channel; with no entry the table is unchanged |
| NamesTable.ResolveAll | zmq-irc/client.py:67-70 | every waiter, in registration order, receives the same list |
| NamesTable.Resolve | zmq-irc/client.py:62-72 | `RPL_ENDOFNAMES` resolves the channel's waiters in order with the accumulated list and drops only that entry; for a channel not pending it does nothing |
| NamesTable.Coalesce | zmq-irc/client.py:42-72 | two `names` for one channel, in any letter case, then a reply, then the end: both waiters get the same list, in order, and the table is as before |
| NamesTable.IssuedBelowKept | zmq-irc/client.py:42-72 | every pending waiter is older than the next one to be issued, and `names`, replies and ends keep that so |
| Registry.Put | zmq-irc/client.py:236-238 | `clients[email][network] = client` installs the session at that key and leaves every other (user, network) entry as it was |
| Registry.Touch | zmq-irc/client.py:175 | looking up a user on the defaultdict inserts an empty map for an unknown user and adds, removes or replaces no session |
| Registry.PutReplaces | zmq-irc/client.py:238 | a later registration at the same key replaces the earlier one |
| Registry.PutCommutes | client.py:175 | registrations at different keys commute |
| Control.Parse | zmq-irc/client.py:169-174 | a message splits into user, server, command and args exactly when it has at least three frames, and nothing is lost |
| Control.ParseUnparse | zmq-irc/client.py:169-174 | every command survives a trip over the bus |
| Dialing.Dial | zmq-irc/client.py:224-234 | the factory is named after the hostname, and the endpoint is SSL exactly when `ssl` is true |
| Dialing.Dials | zmq-irc/client.py:219-222 | `server_init` makes one attempt per configuration row, in row order |
| ZmqIrcSession.PublishedInTurn | zmq-irc/client.py:69-70 | one more turn of the callback loop extends the records of the earlier turns, numbered on from them |
| ZmqIrcSession.Client.constructor | zmq-irc/client.py:39-40 | a new session has an empty NAMES table and no publisher |
| ZmqIrcSession.Client.SignedOn | zmq-irc/client.py:88-91 | the channel list is empty, a fresh publisher starts at 0, and the one record sent is `signedOn` with the nickname and sequence number 1 |
| ZmqIrcSession.Client.Names | zmq-irc/client.py:42-50 | a new waiter, never pending before, is registered under the lower-cased channel, and one `NAMES` line goes out on every call |
| ZmqIrcSession.Client.AttachGotNames | zmq-irc/client.py:102 | the waiter will run `got_names` for the channel |
| ZmqIrcSession.Client.RplNamReply | zmq-irc/client.py:52-60 | with at least four params the nicknames accumulate as in Accumulate; otherwise the handler raises and nothing changes |
| ZmqIrcSession.Client.GotNames | zmq-irc/client.py:93-95 | publishes `names` with the channel and the list, numbered next; raises before sign-on |
| ZmqIrcSession.Client.RplEndOfNames | zmq-irc/client.py:62-72 | with at least two params the table and the fired log change as Resolve says, and each attached `got_names` publishes, in order, with consecutive numbers |
| ZmqIrcSession.Client.FireAll | zmq-irc/client.py:69-70 | the loop fires every waiter in order with one list and publishes the `names` records of the attached callbacks in the same order |
| ZmqIrcSession.Client.Fire | zmq-irc/client.py:70 | one waiter fires, and its `got_names`, if attached, publishes one record |
| ZmqIrcSession.Client.Joined | zmq-irc/client.py:100-104 | appends the channel, registers a NAMES waiter (the next one issued) with `got_names`, queries the topic, then publishes `joined` with the next number |
| ZmqIrcSession.Client.Left | zmq-irc/client.py:109-111 | `left` as written always fails and changes nothing |
| ZmqIrcSession.Client.LeftAsIntended | zmq-irc/client.py:109-111 | the corrected `left`: removes the first copy of the channel and publishes `left`; fails without publishing when the channel is absent |
| ZmqIrcSession.Client.Forward | zmq-irc/client.py:97-132 | each passive callback publishes its own kind and arguments in order (`topic` drops the user) with the next number; before sign-on (a server NOTICE before the welcome) it fails and publishes nothing |
| ZmqIrcSession.Client.Join | zmq-irc/client.py:186 | the library join is handed the channel and the optional key |
| ZmqIrcSession.Client.Msg | zmq-irc/client.py:191 | the library `msg` is handed the target, the text and the length budget |
| ZmqIrcSession.Client.CtcpMakeQuery | zmq-irc/client.py:197 | the library is handed one CTCP query with its tag and data |
| ZmqIrcSession.Client.TopicQuery | zmq-irc/client.py:103 | the library is asked for the channel's topic |
| ZmqIrcController.Route | zmq-irc/client.py:162-201 | the decision per command: a session only for a named network the user has, `connect` with exactly four args, join with at most two args, msg with length `500 - len(target)`, counted in characters (see Left out), action, names; everything else is ignored |
| ZmqIrcController.RouteUnknownNetwork | zmq-irc/client.py:175-178 | a non-`connect` command fails with a KeyError exactly when the named network is not registered for the user |
| ZmqIrcController.RouteConnect | zmq-irc/client.py:180-183 | `connect` with four args dials `(user, hostname, port, ssl, nick)`, whatever the network field and the registry say |
| ZmqIrcController.RouteGlobalReachesNoSession | zmq-irc/client.py:175-179 | a message to "global" reaches no session, whatever its command and arity |
| ZmqIrcController.RouteGlobalSessionCommandFails | zmq-irc/client.py:175-201 | `join`, `msg`, `action` and `names` to "global", with their arguments, fail on the user's dict: nothing is broadcast |
| ZmqIrcController.RouteReachesSession | zmq-irc/client.py:175-201 | on a network the user has, `join` reaches the session with at most two args, `msg` with `500 - len(target)`, `action` and `names` with their args |
| ZmqIrcController.RouteIgnores | zmq-irc/client.py:175-201 | a message is ignored exactly when it has a command other than the five, and its network lookup succeeds |
| ZmqIrcController.IRC.constructor | zmq-irc/client.py:205-209 | the registry starts empty, and the controller holds the one module-level event bus (`event_publisher`, zmq-irc/client.py:16-17) |
| ZmqIrcController.IRC.Start | zmq-irc/client.py:212-217 | `start` dials the one built-in configuration row |
| ZmqIrcController.IRC.ServerInit | zmq-irc/client.py:219-222 | the loop dials once per row, in order |
| ZmqIrcController.IRC.ServerConnect | zmq-irc/client.py:224-234 | one connection attempt as Dial describes |
| ZmqIrcController.IRC.RegisterClient | zmq-irc/client.py:236-238 | the registry becomes Put of the client at (email, its network), and every registered session still publishes on the one shared bus |
| ZmqIrcController.IRC.MessageReceived | zmq-irc/client.py:162-201 | the decision is Route's; the user's entry is touched; `connect` dials; a session decision is carried out on that session only; a failure is reported |
| ZmqIrcController.IRC.Dispatch | zmq-irc/client.py:180-201 | dials for `connect`, carries out a session decision, or reports the failure |
| ZmqIrcController.IRC.TouchUser | zmq-irc/client.py:175 | the registry is touched and its sessions are the same |
| ZmqIrcController.IRC.Perform | zmq-irc/client.py:184-201 | a session decision is carried out, and the registry stays consistent |
| ZmqIrcController.Apply | zmq-irc/client.py:184-201 | join: one library join; names: a registered waiter with `got_names` and a NAMES line; msg and action: the library request, then a record with the bridge's nickname, the target and the original text; nothing else in the session changes |
| ZmqIrcController.Speak | zmq-irc/client.py:189-192 | `msg`: the library request, then the `privmsg` record; before sign-on the request still goes out and the command fails |
| ZmqIrcController.Act | zmq-irc/client.py:194-198 | `action`: the CTCP ACTION query, then the `action` record; before sign-on it fails after the query |
| ZmqIrcController.AskNames | zmq-irc/client.py:200-201 | `names`: a waiter for the channel with `got_names` attached, and one NAMES line |
| ZmqIrcController.Say | zmq-irc/client.py:192 | the publisher's next record carries the bridge's nickname, the target and the text; without a publisher nothing is sent |
| Channels.FirstIndex | client.py:66 | the first position of the channel in the list |
| Channels.RemoveFirst | client.py:66 | `list.remove` fails exactly when the channel is absent and otherwise shortens the list by one |
| Channels.RemoveFirstAt | client.py:66 | `remove` keeps the list before and after the first copy, in order |
| Channels.RemoveFirstCounts | client.py:66 | one copy of the channel goes; every other channel keeps its count |
| Channels.LeaveUndoesJoin | client.py:62-66 | leaving a channel undoes joining it when it was not already in the list |
| HashiSession.InitialJoins | client.py:49-51 | one join per configured row, in order; a NULL or empty key joins without a key |
| HashiSession.Client.constructor | client.py:81-84 | a new session has the factory's email, network and nickname and no publisher |
| HashiSession.Client.SignedOn | client.py:45-48 | the channel list is empty, a new publisher opens a new socket, and its one record is `signedOn` with the nickname |
| HashiSession.Client.InitialJoin | client.py:49-51 | the loop joins every configured channel in row order |
| HashiSession.Client.Joined | client.py:61-63 | appends the channel (duplicates allowed), then publishes `joined` |
| HashiSession.Client.Left | client.py:65-67 | removes the first copy and publishes `left`; an absent channel fails before anything is published |
| HashiSession.Client.Msg | client.py:69-72 | the library `msg` with `(target, text, length)`, then `privmsg` with the bridge's nickname, the target and the unmodified text; before sign-on it fails after the library call |
| HashiSession.Client.Privmsg | client.py:74-75 | a received message is published with its sender, channel and text; before sign-on it fails and publishes nothing |
| HashiSession.Client.Join | client.py:51 | the library join is handed the channel and the optional key |
| HashiController.Route | client.py:106-136 | any network other than "global" is looked up first, `connect` included; `connect` never dials; join passes at most two args; msg has length `500 - len(target)`, counted in characters (see Left out); other commands are ignored |
| HashiController.RouteConnectFails | client.py:121-129 | `connect` always fails: on the network lookup, or else on the unassigned `hostname` |
| HashiController.RouteUnknownNetwork | client.py:119-122 | any command to a named network fails with a KeyError exactly when the network is not registered for the user |
| HashiController.RouteReachesSession | client.py:119-136 | on a network the user has, `join` reaches the session with at most two args, and `msg` with `500 - len(target)`, counted in characters |
| HashiController.RouteIgnores | client.py:119-136 | a message is ignored exactly when its command is not `connect`, `join` or `msg`, and its network lookup succeeds |
| HashiController.RouteAgreesWithLater | client.py:130-136 | on a named network, `join` and `msg` route as in the later bridge |
| HashiController.RouteGlobalMsgDiffers | client.py:133-136 | a `msg` to "global" with only a target fails here on the missing session method, and in the later bridge on the missing text |
| HashiController.Apply | client.py:130-136 | join: one library join, nothing published; msg: the session's own `msg`; channels and publisher stay |
| HashiController.Hashi.constructor | client.py:140-142 | the registry starts empty |
| HashiController.Hashi.ServerInit | client.py:159-161 | the loop dials once per row, in order |
| HashiController.Hashi.ServerConnect | client.py:163-172 | one connection attempt as Dial describes |
| HashiController.Hashi.RegisterClient | client.py:174-175 | the registry becomes Put of the client at (email, its network) |
| HashiController.Hashi.MessageReceived | client.py:106-136 | the decision is Route's; the user's entry is touched; a session decision is carried out on that session only; a failure is reported; nothing dials |
| HashiController.Hashi.Dispatch | client.py:124-136 | carries out a session decision or reports the failure |
| HashiController.Hashi.TouchUser | client.py:119 | the registry is touched and its sessions are the same |

## Left out

- ZeroMQ endpoints and the transport. A send is an append to an `Outbox`;
  delivery, `print` logging and `setup.py` are not modelled.
- Twisted: the reactor, the TCP and SSL endpoints and the connection
  callbacks. A connection attempt is recorded as a `ConnectRequest`. Whether
  it succeeds, and the `register_client` callback that follows, is left to
  the caller, who calls `RegisterClient`.
- Reconnection (`clientConnectionLost` calls `connector.connect()`) and the
  broken format string of `clientConnectionFailed`. Both are I/O around the
  bookkeeping.
- The database queries:
  - `Hashi.start`;
  - the channel query of the older `signedOn`, whose result `InitialJoin`
    takes as a parameter;
  - the query of the older `connect` branch, which is never reached
    because of the unassigned `hostname`;
  - the controllers' `connectCallback` and `joinCallback`, which nothing
    calls.
- `time.time()`. The timestamp field is an opaque byte string `now`.
- The inside of the IRC library (`IRCClient.join`, `msg`, `ctcpMakeQuery`,
  `topic`, `sendLine`). It receives requests and does not truncate or
  split anything visible to the model.
- The Python attributes that do not exist before `signedOn`. `channels`
  starts as the empty list and `publish` as null. `joined` and `left` (both
  bridges) require a publisher: the library reports them only for channels
  the session itself joined, and a server accepts a JOIN only after
  registration, whose welcome triggers `signedOn`. Callbacks that can
  arrive earlier (`noticed` and the other forwarded callbacks, the older
  `privmsg`, `got_names`) handle the missing publisher as a failure.
- HashiSession.Client.Msg: takes the `length` argument as a number. The
  source's default `length=None` is not modelled, because the controller
  (client.py:136) always passes `500 - len(target)`.
- NamesTable.Lower: folds ASCII letters only, as `str.lower()` does on a
  Python 2 byte string. Non-ASCII case folding of `unicode` channel names is
  not modelled.
- ZmqIrcController.Route: `500 - len(target)` counts characters of the
  target. For a UTF-8 byte-string target Python counts bytes. The model
  does not tell the two apart.
- HashiController.Route: the same holds for the older bridge's budget
  (client.py:136). The model counts characters, while Python 2 counts the
  bytes of a non-ASCII target.
- Older-bridge sockets: each older-bridge publisher has its own socket, and
  a socket from an earlier sign-on is not closed in the model.
- Incoming byte strings that are not well-formed UTF-8: IRC lines and bus
  frames are held as text, so such a nickname, channel or message, which
  the source forwards byte for byte, cannot be represented. For well-formed
  input the bytes on the wire are the same (`Values.IncomingAsText`).
- ZmqIrcSession.Client.RplEndOfNames: one timestamp `now` stamps every
  `names` record published during one `RPL_ENDOFNAMES`. The source reads the
  clock once per record, so its records may carry different timestamps. The
  same holds for ZmqIrcSession.Client.FireAll.
- ZmqIrcController.IRC.MessageReceived: the registry touch is applied after
  the command. The two change disjoint state, so the final state is the one
  the source reaches.

## Findings

| source | as written | input that shows it | evidently intended | confidence | as-written member | corrected member |
|---|---|---|---|---|---|---|
| zmq-irc/client.py:110 | `self.channels.pop(channel)` passes a channel name where `list.pop` takes an index, so every `left` callback raises `TypeError` before `left` is published | any `left("#chan")` after `joined("#chan")` | remove the channel, as the older bridge does with `self.channels.remove(channel)`, then publish `left` | high, not executed | ZmqIrcSession.Client.Left | ZmqIrcSession.Client.LeftAsIntended |
