/**
 The correlation-and-routing core of the WhatsApp/Telegram bridge.

 WhatsApp listeners (one per account) scan the page for unprocessed message
 nodes and push formatted events onto one shared message queue. A single
 consumer posts each event to Telegram and records the Telegram message id in
 the state map, together with the account and the sender it came from. An
 operator's Telegram reply to such a message is turned into a response on
 that account's response queue. The account's listener later takes the
 response, at most one per iteration, and sends it.

 The browser, the bot and the asyncio scheduler are outside this model. Each
 handler body is modelled as one atomic method of class Bridge, so the
 interleavings that asyncio allows at the awaits inside a scan and between
 the consumer's take and its state-map write are not modelled.
 */
module Bridge {

  datatype Option<T> = None | Some(value: T)

  /** Where a forwarded Telegram message came from: the account and the WhatsApp sender. */
  datatype Origin = Origin(account: string, chatOriginal: string)

  /** A reply waiting on an account's response queue. `text` is None for a Telegram reply without text. */
  datatype Response = Response(chatTarget: string, text: Option<string>)

  /** An item of the shared message queue: (source, formatted text, account id, sender). */
  datatype Event = Event(source: string, formatted: string, accountId: string, sender: string)

  /** A Telegram message as the handler sees it: the id of the message it replies to, if any, and its text. */
  datatype TgMessage = TgMessage(replyTo: Option<int>, text: Option<string>)

  /**
   A message node of the WhatsApp page: whether it carries the processed mark,
   the title of its sender element (None when there is no such element) and
   the inner text of its text element (None when there is no such element).
   */
  datatype MsgNode = MsgNode(processed: bool, sender: Option<string>, text: Option<string>)

  /** The accounts, in listener start order. */
  const AccountIds: seq<string> := ["WhatsApp-1", "WhatsApp-2"]

  /** The source tag listeners put on their events; the consumer forwards only these. */
  const WhatsAppSource: string := "whatsapp"

  /** The text used for a message node without a text element. */
  const MediaPlaceholder: string := "<media>"

  /** The reply to an operator message that does not answer a known forwarded message. */
  const Guidance: string := "Por favor responde a un mensaje para enviar la respuesta."

  // ---------------------------------------------------------------------------
  // Formatting of forwarded WhatsApp messages
  // ---------------------------------------------------------------------------

  /** The message text of a node, or the media placeholder when it has no text element. */
  function Body(text: Option<string>): string
  {
    match text
    case Some(t) => t
    case None => MediaPlaceholder
  }

  /** The header written before the message text: `[account] De sender: `. */
  function Header(account: string, sender: string): string
  {
    "[" + account + "] De " + sender + ": "
  }

  function Format(account: string, sender: string, text: Option<string>): string
  {
    Header(account, sender) + Body(text)
  }

  /** A formatted message splits into its header and the message text, so the text can be recovered. */
  lemma FormatSplits(account: string, sender: string, text: Option<string>)
    ensures |Header(account, sender)| == |account| + |sender| + 8
    ensures Format(account, sender, text)[..|account| + |sender| + 8] == Header(account, sender)
    ensures Format(account, sender, text)[|account| + |sender| + 8..] == Body(text)
  {
  }

  /** For one account and sender, equal formatted messages carry equal message texts. */
  lemma FormatDeterminesBody(account: string, sender: string, t1: Option<string>, t2: Option<string>)
    requires Format(account, sender, t1) == Format(account, sender, t2)
    ensures Body(t1) == Body(t2)
  {
    FormatSplits(account, sender, t1);
    FormatSplits(account, sender, t2);
  }

  /** A media message and a text message reading "<media>" are forwarded as the same text. */
  lemma MediaIndistinguishable(account: string, sender: string)
    ensures Format(account, sender, None) == Format(account, sender, Some(MediaPlaceholder))
  {
  }

  // ---------------------------------------------------------------------------
  // Specification of one scan of the page
  // ---------------------------------------------------------------------------

  /** A node produces an event during a scan: it is not yet processed and it has a sender. */
  predicate Forwardable(n: MsgNode)
  {
    !n.processed && n.sender.Some?
  }

  /** The event the listener of `account` pushes for a forwardable node. */
  function NodeEvent(account: string, n: MsgNode): Event
    requires n.sender.Some?
  {
    Event(WhatsAppSource, Format(account, n.sender.value, n.text), account, n.sender.value)
  }

  /** The events (zero or one) one node contributes to a scan. */
  function NodeEvents(account: string, n: MsgNode): seq<Event>
  {
    if Forwardable(n) then [NodeEvent(account, n)] else []
  }

  /** The events a scan of `nodes` pushes, in scan order. */
  function ScanEvents(account: string, nodes: seq<MsgNode>): (r: seq<Event>)
    ensures |r| <= |nodes|
    ensures forall k :: 0 <= k < |r| ==> r[k].source == WhatsAppSource && r[k].accountId == account
    decreases |nodes|
  {
    if nodes == [] then []
    else ScanEvents(account, nodes[..|nodes| - 1]) + NodeEvents(account, nodes[|nodes| - 1])
  }

  /** A scan of one more node adds that node's events at the end. */
  lemma ScanEventsStep(account: string, nodes: seq<MsgNode>, i: nat)
    requires i < |nodes|
    ensures ScanEvents(account, nodes[..i + 1]) == ScanEvents(account, nodes[..i]) + NodeEvents(account, nodes[i])
  {
    assert nodes[..i + 1][..i] == nodes[..i];
  }

  /** The page after a scan: every node carries the processed mark, nothing else changes. */
  function MarkAll(nodes: seq<MsgNode>): (r: seq<MsgNode>)
    ensures |r| == |nodes|
    ensures forall k :: 0 <= k < |r| ==> r[k].processed
    ensures forall k :: 0 <= k < |r| ==> r[k].sender == nodes[k].sender && r[k].text == nodes[k].text
  {
    seq(|nodes|, k requires 0 <= k < |nodes| => nodes[k].(processed := true))
  }

  /** The nodes a scan forwards, as a filter: an independent reference for ScanEvents. */
  function Pending(nodes: seq<MsgNode>): (r: seq<MsgNode>)
    ensures |r| <= |nodes|
    ensures forall k :: 0 <= k < |r| ==> Forwardable(r[k])
  {
    if nodes == [] then []
    else (if Forwardable(nodes[0]) then [nodes[0]] else []) + Pending(nodes[1..])
  }

  /** Scanning two runs of nodes one after the other pushes the events of the first, then those of the second. */
  lemma {:induction false} ScanEventsAppend(account: string, a: seq<MsgNode>, b: seq<MsgNode>)
    ensures ScanEvents(account, a + b) == ScanEvents(account, a) + ScanEvents(account, b)
    decreases |b|
  {
    if b == [] {
      assert a + b == a;
    } else {
      var b' := b[..|b| - 1];
      assert (a + b)[..|a + b| - 1] == a + b';
      ScanEventsAppend(account, a, b');
    }
  }

  /** The scan pushes exactly one event per pending node, in page order, formatted from that node. */
  lemma {:induction false} ScanEventsArePending(account: string, nodes: seq<MsgNode>)
    ensures |ScanEvents(account, nodes)| == |Pending(nodes)|
    ensures forall k :: 0 <= k < |Pending(nodes)| ==>
              ScanEvents(account, nodes)[k] == NodeEvent(account, Pending(nodes)[k])
    decreases |nodes|
  {
    if nodes != [] {
      var rest := nodes[1..];
      assert nodes == [nodes[0]] + rest;
      ScanEventsAppend(account, [nodes[0]], rest);
      assert [nodes[0]][..0] == [];
      assert ScanEvents(account, [nodes[0]]) == NodeEvents(account, nodes[0]);
      ScanEventsArePending(account, rest);
    }
  }

  /** Nodes that already carry the processed mark produce no event. */
  lemma {:induction false} ScanProcessedIsEmpty(account: string, nodes: seq<MsgNode>)
    requires forall k :: 0 <= k < |nodes| ==> nodes[k].processed
    ensures ScanEvents(account, nodes) == []
    decreases |nodes|
  {
    if nodes != [] {
      ScanProcessedIsEmpty(account, nodes[..|nodes| - 1]);
    }
  }

  /** A second scan of the page a scan left behind forwards nothing: no message is forwarded twice. */
  lemma RescanIsEmpty(account: string, nodes: seq<MsgNode>)
    ensures ScanEvents(account, MarkAll(nodes)) == []
  {
    ScanProcessedIsEmpty(account, MarkAll(nodes));
  }

  /** A run of nodes without any sender element produces no event, whether processed or not. */
  lemma {:induction false} ScanSkipsSenderless(account: string, nodes: seq<MsgNode>)
    requires forall k :: 0 <= k < |nodes| ==> nodes[k].sender.None?
    ensures ScanEvents(account, nodes) == []
    decreases |nodes|
  {
    if nodes != [] {
      ScanSkipsSenderless(account, nodes[..|nodes| - 1]);
    }
  }

  // ---------------------------------------------------------------------------
  // Queues and the state map
  // ---------------------------------------------------------------------------

  /** A non-blocking get: the head of a non-empty queue and the rest, or nothing from an empty one. */
  function PollQueue(q: seq<Response>): (r: (Option<Response>, seq<Response>))
    ensures r.0.None? <==> q == []
    ensures r.0.Some? ==> q == [r.0.value] + r.1
    ensures r.0.None? ==> r.1 == q
  {
    if q == [] then (None, q) else (Some(q[0]), q[1..])
  }

  /** The origin a Telegram message resolves to: present exactly when it replies to a stored id. */
  function Lookup(stateMap: map<int, Origin>, msg: TgMessage): (r: Option<Origin>)
    ensures r.Some? <==> msg.replyTo.Some? && msg.replyTo.value in stateMap
    ensures r.Some? ==> r.value == stateMap[msg.replyTo.value]
  {
    match msg.replyTo
    case Some(id) => if id in stateMap then Some(stateMap[id]) else None
    case None => None
  }

  /** The state shared by the listeners, the Telegram handler and the queue consumer. */
  class Bridge {
    /** Telegram message id to the origin of the forwarded message. */
    var stateMap: map<int, Origin>
    /** Per account, the responses its listener has yet to send, oldest first. */
    var responseQueues: map<string, seq<Response>>
    /** Events waiting to be posted to Telegram, oldest first. */
    var messageQueue: seq<Event>

    /** Routing never misses a queue: every account that can be stored has a response queue. */
    ghost predicate Valid()
      reads this
    {
      (forall id :: id in stateMap ==> stateMap[id].account in AccountIds) &&
      (forall a :: a in AccountIds ==> a in responseQueues) &&
      (forall k :: 0 <= k < |messageQueue| ==> messageQueue[k].accountId in AccountIds)
    }

    /** Start-up: an empty map and message queue, and one empty response queue per account. */
    constructor ()
      ensures Valid()
      ensures stateMap == map[] && messageQueue == []
      ensures responseQueues == map["WhatsApp-1" := [], "WhatsApp-2" := []]
      ensures forall a :: a in AccountIds ==> responseQueues[a] == []
    {
      stateMap := map[];
      messageQueue := [];
      responseQueues := map["WhatsApp-1" := [], "WhatsApp-2" := []];
    }

    /**
     One step of the queue consumer: take the oldest event; when its source is
     WhatsApp, post its text and record the returned Telegram id `sentId`.
     With an empty queue the consumer stays suspended and nothing changes.
     */
    method Forward(sentId: int) returns (posted: Option<string>)
      requires Valid()
      modifies this
      ensures Valid()
      ensures responseQueues == old(responseQueues)
      ensures old(messageQueue) == [] ==>
                posted == None && messageQueue == [] && stateMap == old(stateMap)
      ensures old(messageQueue) != [] ==> messageQueue == old(messageQueue)[1..]
      ensures old(messageQueue) != [] && old(messageQueue)[0].source == WhatsAppSource ==>
                var ev := old(messageQueue)[0];
                posted == Some(ev.formatted) &&
                stateMap == old(stateMap)[sentId := Origin(ev.accountId, ev.sender)]
      ensures old(messageQueue) != [] && old(messageQueue)[0].source != WhatsAppSource ==>
                posted == None && stateMap == old(stateMap)
    {
      posted := None;
      if messageQueue != [] {
        var ev := messageQueue[0];
        messageQueue := messageQueue[1..];
        if ev.source == WhatsAppSource {
          posted := Some(ev.formatted);
          stateMap := stateMap[sentId := Origin(ev.accountId, ev.sender)];
        }
      }
    }

    /**
     The Telegram message handler: a reply to a stored id appends one response
     to that origin's account queue; any other message is answered with the
     guidance text and changes nothing.
     */
    method HandleMessage(msg: TgMessage) returns (reply: Option<string>)
      requires Valid()
      modifies this
      ensures Valid()
      ensures stateMap == old(stateMap) && messageQueue == old(messageQueue)
      ensures Lookup(old(stateMap), msg).Some? ==>
                var o := Lookup(old(stateMap), msg).value;
                o.account in old(responseQueues) && reply == None &&
                responseQueues == old(responseQueues)[o.account := old(responseQueues)[o.account] + [Response(o.chatOriginal, msg.text)]]
      ensures Lookup(old(stateMap), msg).None? ==>
                reply == Some(Guidance) && responseQueues == old(responseQueues)
    {
      var found := Lookup(stateMap, msg);
      match found
      case Some(o) =>
        responseQueues := responseQueues[o.account := responseQueues[o.account] + [Response(o.chatOriginal, msg.text)]];
        reply := None;
      case None =>
        reply := Some(Guidance);
    }

    /** The listener's non-blocking get on its own response queue. */
    method TakeResponse(account: string) returns (r: Option<Response>)
      requires Valid() && account in AccountIds
      modifies this
      ensures Valid()
      ensures stateMap == old(stateMap) && messageQueue == old(messageQueue)
      ensures account in old(responseQueues)
      ensures (r, responseQueues[account]) == PollQueue(old(responseQueues)[account])
      ensures responseQueues == old(responseQueues)[account := responseQueues[account]]
    {
      var q := responseQueues[account];
      var polled := PollQueue(q);
      r := polled.0;
      responseQueues := responseQueues[account := polled.1];
    }

    /**
     The listener's scan of its page: mark every unprocessed node processed
     and push an event for each one that has a sender, in page order.
     */
    method Scan(account: string, page: array<MsgNode>)
      requires Valid() && account in AccountIds
      modifies this, page
      ensures Valid()
      ensures stateMap == old(stateMap) && responseQueues == old(responseQueues)
      ensures messageQueue == old(messageQueue) + ScanEvents(account, old(page[..]))
      ensures page[..] == MarkAll(old(page[..]))
    {
      ghost var nodes := page[..];
      var i := 0;
      while i < page.Length
        invariant 0 <= i <= page.Length
        invariant stateMap == old(stateMap) && responseQueues == old(responseQueues)
        invariant forall k :: 0 <= k < i ==> page[k] == nodes[k].(processed := true)
        invariant forall k :: i <= k < page.Length ==> page[k] == nodes[k]
        invariant messageQueue == old(messageQueue) + ScanEvents(account, nodes[..i])
      {
        var n := page[i];
        ghost var before := messageQueue;
        if !n.processed {
          page[i] := n.(processed := true);
          if n.sender.Some? {
            messageQueue := messageQueue + [NodeEvent(account, n)];
          }
        }
        assert page[i] == n.(processed := true);
        assert messageQueue == before + NodeEvents(account, n);
        ScanEventsStep(account, nodes, i);
        assert old(messageQueue) + ScanEvents(account, nodes[..i + 1])
            == old(messageQueue) + ScanEvents(account, nodes[..i]) + NodeEvents(account, n);
        i := i + 1;
      }
      assert nodes[..i] == nodes;
      assert forall k :: 0 <= k < page.Length ==> page[..][k] == MarkAll(nodes)[k];
      assert page[..] == MarkAll(nodes);
    }

    /** One iteration of an account's listener: take at most one response to send, then scan the page. */
    method ListenerStep(account: string, page: array<MsgNode>) returns (sending: Option<Response>)
      requires Valid() && account in AccountIds
      modifies this, page
      ensures Valid()
      ensures stateMap == old(stateMap)
      ensures account in old(responseQueues)
      ensures (sending, responseQueues[account]) == PollQueue(old(responseQueues)[account])
      ensures responseQueues == old(responseQueues)[account := responseQueues[account]]
      ensures messageQueue == old(messageQueue) + ScanEvents(account, old(page[..]))
      ensures page[..] == MarkAll(old(page[..]))
    {
      sending := TakeResponse(account);
      Scan(account, page);
    }
  }

  // ---------------------------------------------------------------------------
  // Properties that relate several steps
  // ---------------------------------------------------------------------------

  /** Forwarding an event and replying to the returned id routes the reply to the event's account and sender. */
  method ForwardThenReply(b: Bridge, sentId: int, text: Option<string>) returns (posted: Option<string>, reply: Option<string>)
    requires b.Valid() && b.messageQueue != [] && b.messageQueue[0].source == WhatsAppSource
    modifies b
    ensures b.Valid()
    ensures posted == Some(old(b.messageQueue)[0].formatted) && reply == None
    ensures b.messageQueue == old(b.messageQueue)[1..]
    ensures b.stateMap == old(b.stateMap)[sentId := Origin(old(b.messageQueue)[0].accountId, old(b.messageQueue)[0].sender)]
    ensures var acc := old(b.messageQueue)[0].accountId;
            acc in old(b.responseQueues) &&
            b.responseQueues == old(b.responseQueues)[acc := old(b.responseQueues)[acc] + [Response(old(b.messageQueue)[0].sender, text)]]
  {
    posted := b.Forward(sentId);
    reply := b.HandleMessage(TgMessage(Some(sentId), text));
  }

  /** Two replies to the same id give two identical, independent entries on the same queue. */
  method ReplyTwice(b: Bridge, msg: TgMessage)
    requires b.Valid() && Lookup(b.stateMap, msg).Some?
    modifies b
    ensures b.Valid() && b.stateMap == old(b.stateMap)
    ensures var o := Lookup(old(b.stateMap), msg).value;
            o.account in old(b.responseQueues) &&
            b.responseQueues == old(b.responseQueues)[o.account := old(b.responseQueues)[o.account] + [Response(o.chatOriginal, msg.text), Response(o.chatOriginal, msg.text)]]
  {
    ghost var o := Lookup(b.stateMap, msg).value;
    ghost var q := b.responseQueues[o.account];
    var r1 := b.HandleMessage(msg);
    var r2 := b.HandleMessage(msg);
    assert q + [Response(o.chatOriginal, msg.text)] + [Response(o.chatOriginal, msg.text)]
        == q + [Response(o.chatOriginal, msg.text), Response(o.chatOriginal, msg.text)];
  }

  /** A scan over a node without a sender and a media message from Bob pushes only Bob's message. */
  lemma ScanExample()
    ensures ScanEvents("WhatsApp-1", [MsgNode(false, None, Some("ignored")), MsgNode(false, Some("Bob"), None)])
         == [Event("whatsapp", "[WhatsApp-1] De Bob: <media>", "WhatsApp-1", "Bob")]
  {
    var nodes := [MsgNode(false, None, Some("ignored")), MsgNode(false, Some("Bob"), None)];
    assert nodes[..1] == [nodes[0]] && [nodes[0]][..0] == [];
    assert Format("WhatsApp-1", "Bob", None) == "[WhatsApp-1] De Bob: <media>";
  }

  /** Bob's "hi" on account WhatsApp-1 is forwarded as "[WhatsApp-1] De Bob: hi". */
  lemma FormatExample()
    ensures Format("WhatsApp-1", "Bob", Some("hi")) == "[WhatsApp-1] De Bob: hi"
  {
  }

  /** One forwarded message and its answer, run from start-up: Bob's "hi" on WhatsApp-1, Telegram id 501, reply "ok". */
  method ScenarioForwardAndReply()
  {
    var b := new Bridge();
    var page := new MsgNode[1];
    page[0] := MsgNode(false, Some("Bob"), Some("hi"));
    ghost var nodes := page[..];
    assert [nodes[0]][..0] == [];
    var sending := b.ListenerStep("WhatsApp-1", page);
    assert sending == None;
    assert b.messageQueue == [NodeEvent("WhatsApp-1", nodes[0])];
    FormatExample();
    var posted := b.Forward(501);
    assert posted == Some("[WhatsApp-1] De Bob: hi");
    assert b.stateMap == map[501 := Origin("WhatsApp-1", "Bob")];
    var reply := b.HandleMessage(TgMessage(Some(501), Some("ok")));
    assert reply == None;
    assert b.responseQueues["WhatsApp-1"] == [Response("Bob", Some("ok"))];
    reply := b.HandleMessage(TgMessage(Some(9999), Some("?")));
    assert reply == Some(Guidance);
    sending := b.TakeResponse("WhatsApp-1");
    assert sending == Some(Response("Bob", Some("ok")));
    assert b.responseQueues["WhatsApp-1"] == [];
  }
}
