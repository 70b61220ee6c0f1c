# WhatsApp/Telegram bridge: correlation and routing core

This project models the bookkeeping at the centre of `bridge.py`, a bridge between
several WhatsApp Web accounts and one Telegram chat, and proves properties of it.

- Each account's listener scans its WhatsApp page for message nodes that are not yet
  marked processed. It marks each one processed. For each node that has a sender, it
  pushes the event `('whatsapp', '[account] De sender: text', account, sender)` onto the
  shared message queue.
- The queue consumer posts each WhatsApp event to Telegram. It records the returned
  Telegram message id in the state map as `{account, chat_original}`.
- The Telegram handler routes a reply to a recorded id. It appends
  `{chat_target, text}` to that account's response queue. Any other message gets a fixed
  guidance reply and changes nothing.
- Each listener iteration takes at most one response from its own queue, oldest first,
  and sends it.

The model is one module, `Bridge` (`bridge.dfy`). Class `Bridge` holds the three pieces of
shared state: `stateMap: map<int, Origin>`, `responseQueues: map<string, seq<Response>>`
and `messageQueue: seq<Event>`. Each handler body is one method, and each method is one
atomic step. bridge.py's handlers do suspend at their awaits, so this is a
simplification; "## Left out" lists the interleavings it does not reach. The WhatsApp
page is an `array<MsgNode>`. A node records whether it is processed, its sender title (if the sender element exists) and its inner text (if
the text element exists). The scan marks the nodes in place. `Valid()` is the invariant
"routing never misses a queue". It says every account in the state map and in the
message queue is one of `AccountIds`, and every one of `AccountIds` has a response queue.
Every method keeps it, starting from the constructor, which models the setup in `main`.

Pure specification functions describe a scan: `ScanEvents`, `MarkAll`, and `Pending`, an
independent filter-style reference. `PollQueue` is the non-blocking get and `Lookup` is
the state-map lookup. The methods are proved against these functions, and lemmas prove
what the functions mean.

Two details of the code that the model keeps:
- The `<media>` placeholder is used only when a node has no text element
  (bridge.py:55-56). An empty text element forwards an empty text.
- A repeated Telegram id overwrites its state-map entry (bridge.py:89).

## Model

| member | source | states |
|---|---|---|
| `Bridge.Bridge.constructor` | bridge.py:99-103 | starts with an empty state map and message queue, as created at bridge.py:16-17, and one empty response queue for each of "WhatsApp-1" and "WhatsApp-2"; every entry of `account_ids` is a queue key (`Valid`) |
| `Bridge.Bridge.Forward` | bridge.py:84-92 | takes the oldest event; a 'whatsapp' event is posted and sets `stateMap[sentId]` to its account and sender, with every other key unchanged; any other source is consumed and leaves the map unchanged; response queues never change; an empty queue changes nothing |
| `Bridge.Bridge.HandleMessage` | bridge.py:73-82 | a reply to a stored id appends exactly one `{chat_target: chat_original, text}` to that origin's account queue, and every other queue stays the same; no reply, or a reply to an unknown id, enqueues nothing and returns the guidance text; the state map and message queue never change |
| `Bridge.Bridge.TakeResponse` | bridge.py:35-42 | removes at most one response from the account's own queue, the oldest; an empty queue gives nothing and changes nothing; other queues and all other state unchanged |
| `Bridge.Bridge.Scan` | bridge.py:44-59 | the message queue grows by exactly `ScanEvents` of the page as it was, in page order; afterwards every node is marked processed, senders and texts untouched; map and response queues unchanged |
| `Bridge.Bridge.ListenerStep` | bridge.py:33-59 | one listener iteration: the FIFO take of `TakeResponse` followed by the scan of `Scan`, with the state map unchanged |
| `Bridge.PollQueue` | bridge.py:35-42 | `get_nowait`: gives nothing exactly when the queue is empty; otherwise gives the head and leaves the rest, so head plus rest rebuilds the queue |
| `Bridge.Lookup` | bridge.py:74-75 | a message resolves to an origin exactly when it replies to an id in the state map, and then to the stored origin |
| `Bridge.Bridge.Valid` | bridge.py:100-106 | routing never misses a queue: every account stored in the state map (bridge.py:89-90) or on the message queue (bridge.py:59) is one of `account_ids` (bridge.py:18), and each of them has a response queue |
| `Bridge.Format` | bridge.py:58 | the forwarded text `'[' + account + '] De ' + sender + ': ' + body`; its meaning is stated by `FormatSplits` and `FormatDeterminesBody` |
| `Bridge.Header` | bridge.py:58 | the part of the forwarded text before the message body |
| `Bridge.Body` | bridge.py:56 | the inner text of the text element, or `<media>` when there is none |
| `Bridge.Forwardable` | bridge.py:45-52 | a node yields an event when the `:not([data-processed])` selector picks it and it has a sender element |
| `Bridge.NodeEvent` | bridge.py:58-59 | the tuple `('whatsapp', formatted, account, sender)` put for a node |
| `Bridge.NodeEvents` | bridge.py:48-59 | one loop iteration's contribution: that event for a forwardable node, nothing otherwise |
| `Bridge.ScanEvents` | bridge.py:48-59 | a scan produces at most one event per node, each tagged 'whatsapp' with the scanning account |
| `Bridge.MarkAll` | bridge.py:48-49 | after a scan every node is marked processed, and its sender and text are unchanged |
| `Bridge.Pending` | bridge.py:48-52 | the nodes a scan forwards, in page order: only unprocessed nodes that have a sender |
| `Bridge.ScanEventsAppend` | bridge.py:48-59 | scanning in sequence: the events of a page are those of its first part followed by those of the rest |
| `Bridge.ScanEventsStep` | bridge.py:48-59 | scanning one more node appends that node's events, if any, at the end |
| `Bridge.ScanExample` | bridge.py:48-59 | a node without a sender followed by Bob's media message yields the single event `('whatsapp', '[WhatsApp-1] De Bob: <media>', 'WhatsApp-1', 'Bob')` |
| `Bridge.FormatExample` | bridge.py:58 | Bob's "hi" on WhatsApp-1 is forwarded as `[WhatsApp-1] De Bob: hi` |
| `Bridge.ScanEventsArePending` | bridge.py:48-59 | exactly one event per pending node, in scan order, whose text is `[account] De sender: ` plus the node's text or `<media>` |
| `Bridge.ScanProcessedIsEmpty` | bridge.py:45-49 | nodes already marked processed produce no event |
| `Bridge.RescanIsEmpty` | bridge.py:45-49 | scanning the page a scan left behind produces nothing, so no node is forwarded twice |
| `Bridge.ScanSkipsSenderless` | bridge.py:50-52 | nodes without a sender element produce no event (that `Scan` still marks them is stated by `MarkAll`) |
| `Bridge.FormatSplits` | bridge.py:56-58 | a formatted message is the header `[account] De sender: ` of length `|account| + |sender| + 8` followed by the message text or `<media>` |
| `Bridge.FormatDeterminesBody` | bridge.py:56-58 | for one account and sender, equal forwarded texts mean equal message texts |
| `Bridge.MediaIndistinguishable` | bridge.py:55-58 | a media message and a text message reading `<media>` are forwarded as the same text |
| `Bridge.ForwardThenReply` | bridge.py:74-92 | forwarding an event under id `sentId` and then replying to `sentId` posts the event's text, records its origin under `sentId`, removes it from the message queue, gives no guidance reply, and appends `{event sender, reply text}` to exactly the event's account queue |
| `Bridge.ReplyTwice` | bridge.py:74-80 | two replies to the same id append two identical entries to the same queue, with no deduplication, and leave the map unchanged |

`Bridge.ScenarioForwardAndReply` is a worked example with no contract. Starting from
start-up, Bob's "hi" on WhatsApp-1 is forwarded as Telegram id 501 and the reply "ok"
reaches WhatsApp-1's queue. A reply to the unknown id 9999 gets the guidance text, and the
next take returns the response.

## Left out

- Playwright browser automation is not modelled: launching, navigating, selectors,
  `fill`/`click`, and reading and writing DOM attributes (bridge.py:22-31, 37-40, 45-56).
  A page is an array of abstract nodes. Sending a response is the value `ListenerStep`
  returns.
- The aiogram bot is not modelled: its set-up, `start_polling`, `send_message` and
  `message.reply` (bridge.py:68-72, 82, 88, 95). The Telegram id that `send_message`
  returns is the `sentId` input of `Forward`, and the guidance reply is `HandleMessage`'s
  result.
- asyncio is not modelled: task creation, `gather`, the `sleep(0.1)`/`sleep(5)` pauses and
  the broad `except Exception` print-and-pause (bridge.py:60-65, 94-97, 104-112). A browser
  exception in the middle of a scan, which would leave the page partly marked, is not
  modelled either.
- Scan: atomic here, but in bridge.py it suspends at every await of its loop
  (bridge.py:49, 50, 54, 56). The events of two listeners can therefore interleave in
  `message_queue`, and the consumer can forward the first events of a scan before the scan
  ends. The model does not reach these states.
- Forward: atomic here, but in bridge.py the consumer takes the event (bridge.py:86) and
  suspends in `send_message` (bridge.py:88) before writing `state_map` (bridge.py:89). A
  reply handled in that window gets the guidance text although the message is already on
  Telegram. The model does not reach this state.
- Blocking `message_queue.get()` on an empty queue is modelled as a step that changes
  nothing.
- Exceptions that stop the whole bridge are not modelled. An exception while sending a
  response (bridge.py:37-40) escapes the listener, because only `QueueEmpty` is caught.
  A failing `send_message` (bridge.py:88) escapes `queue_consumer`, which has no `try`;
  by then the event has left `message_queue` and has no `state_map` entry. Either one
  propagates out of `gather` (bridge.py:109), and `asyncio.run` (bridge.py:112) then cancels
  the other tasks. Both come from foreign calls.
- Configuration constants (token, chat id, headless flag, profile directories,
  bridge.py:6-8, 19) and the selector values (bridge.py:11-14) are left out. They only
  feed foreign calls.
