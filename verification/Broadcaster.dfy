/** Topics, subscribers and bounded channels. A channel is known by a number; sending to one and
    receiving from one are single steps. Publish holds the read lock throughout and a topic here
    has one publisher at a time, so a whole Publish is one step too. */
module Broadcasting {
  import opened Framing

  type Message = Bytes
  type Topic = string
  type ChanId = nat

  const CAPACITY: nat := 64

  datatype Chan = Chan(queue: seq<Message>, closed: bool)

  // History: a line offered to a channel, whether it was taken, how many lines were queued then.
  datatype Offer = Offer(line: Message, taken: bool, queued: nat)

  datatype Info = Info(topic: Topic, from: nat, offers: seq<Offer>, received: seq<Message>)

  datatype Bus = Bus(
    subs: map<Topic, seq<ChanId>>,
    chans: map<ChanId, Chan>,
    log: map<Topic, seq<Message>>,   // history: everything published
    info: map<ChanId, Info>)         // history: per channel

  function SubsOf(subs: map<Topic, seq<ChanId>>, t: Topic): seq<ChanId> {
    if t in subs then subs[t] else []
  }

  function LogOf(log: map<Topic, seq<Message>>, t: Topic): seq<Message> {
    if t in log then log[t] else []
  }

  // ---------------------------------------------------------------- the operations

  function Offered(c: Chan, line: Message): Chan {
    if |c.queue| < CAPACITY then c.(queue := c.queue + [line]) else c
  }

  function Noted(i: Info, c: Chan, line: Message): Info {
    i.(offers := i.offers + [Offer(line, |c.queue| < CAPACITY, |c.queue|)])
  }

  function OfferAll(chans: map<ChanId, Chan>, list: seq<ChanId>, line: Message): map<ChanId, Chan> {
    map c | c in chans :: if c in list then Offered(chans[c], line) else chans[c]
  }

  function NoteAll(info: map<ChanId, Info>, chans: map<ChanId, Chan>, list: seq<ChanId>, line: Message): map<ChanId, Info>
    requires info.Keys == chans.Keys
  {
    map c | c in info :: if c in list then Noted(info[c], chans[c], line) else info[c]
  }

  function AfterPublish(b: Bus, t: Topic, line: Message): Bus
    requires b.info.Keys == b.chans.Keys
  {
    var list := SubsOf(b.subs, t);
    Bus(b.subs, OfferAll(b.chans, list, line), b.log[t := LogOf(b.log, t) + [line]],
        NoteAll(b.info, b.chans, list, line))
  }

  function AfterSubscribe(b: Bus, t: Topic, c: ChanId): Bus {
    Bus(b.subs[t := SubsOf(b.subs, t) + [c]], b.chans[c := Chan([], false)], b.log,
        b.info[c := Info(t, |LogOf(b.log, t)|, [], [])])
  }

  function Without(list: seq<ChanId>, c: ChanId): seq<ChanId> {
    if list == [] then []
    else if list[0] == c then list[1..]
    else [list[0]] + Without(list[1..], c)
  }

  function SubsWithout(subs: map<Topic, seq<ChanId>>, t: Topic, c: ChanId): map<Topic, seq<ChanId>> {
    var list := Without(SubsOf(subs, t), c);
    if list == [] then subs - {t} else subs[t := list]
  }

  function AfterUnsubscribe(b: Bus, t: Topic, c: ChanId): Bus
    requires c in b.chans
  {
    Bus(SubsWithout(b.subs, t, c), b.chans[c := Chan(b.chans[c].queue, true)], b.log, b.info)
  }

  function AfterReceive(b: Bus, c: ChanId): Bus
    requires c in b.chans && c in b.info && b.chans[c].queue != []
  {
    var ch, i := b.chans[c], b.info[c];
    Bus(b.subs, b.chans[c := Chan(ch.queue[1..], ch.closed)], b.log,
        b.info[c := Info(i.topic, i.from, i.offers, i.received + [ch.queue[0]])])
  }

  // ---------------------------------------------------------------- the registry

  predicate Distinct(list: seq<ChanId>) {
    forall i, j :: 0 <= i < j < |list| ==> list[i] != list[j]
  }

  predicate OpenOn(b: Bus, c: ChanId, t: Topic) {
    c in b.chans && c in b.info && !b.chans[c].closed && b.info[c].topic == t
  }

  ghost predicate TopicOk(b: Bus, t: Topic, list: seq<ChanId>) {
    list != [] && Distinct(list) && forall c :: c in list ==> OpenOn(b, c, t)
  }

  // No empty topic list; every registered channel is open, registered once and on its own topic;
  // every open channel is registered. So no send can hit a closed channel.
  ghost predicate RegistryOk(b: Bus) {
    && (forall t :: t in b.subs ==> TopicOk(b, t, b.subs[t]))
    && (forall c, t :: OpenOn(b, c, t) ==> c in SubsOf(b.subs, t))
  }

  // ---------------------------------------------------------------- delivery

  function Taken(offers: seq<Offer>): seq<Message> {
    if offers == [] then []
    else
      var last := offers[|offers| - 1];
      Taken(offers[..|offers| - 1]) + if last.taken then [last.line] else []
  }

  // What a channel's reader has received, followed by what is still queued for it, is what was
  // taken of the lines published on its topic since it subscribed; a line was not taken only if
  // the channel was full.
  ghost predicate ChannelOk(c: Chan, i: Info, log: seq<Message>) {
    && |c.queue| <= CAPACITY
    && i.received + c.queue == Taken(i.offers)
    && (forall k :: 0 <= k < |i.offers| ==> (i.offers[k].taken <==> i.offers[k].queued < CAPACITY))
    && i.from + |i.offers| <= |log|
    && (!c.closed ==> i.from + |i.offers| == |log|)
    && (forall k :: 0 <= k < |i.offers| ==> i.offers[k].line == log[i.from + k])
  }

  ghost predicate DeliveryOk(b: Bus) {
    && b.info.Keys == b.chans.Keys
    && forall c :: c in b.chans ==> ChannelOk(b.chans[c], b.info[c], LogOf(b.log, b.info[c].topic))
  }

  ghost predicate BusOk(b: Bus) {
    RegistryOk(b) && DeliveryOk(b)
  }

  const EmptyBus := Bus(map[], map[], map[], map[])

  lemma PublishKeepsChannel(c: Chan, i: Info, log: seq<Message>, line: Message)
    requires ChannelOk(c, i, log) && !c.closed
    ensures ChannelOk(Offered(c, line), Noted(i, c, line), log + [line])
  {
    var n := Noted(i, c, line);
    assert n.offers[..|n.offers| - 1] == i.offers;
    assert i.received + (c.queue + [line]) == i.received + c.queue + [line];
  }

  // What keeps the lists and the open channels keeps the registry.
  lemma RegistryFrame(a: Bus, b: Bus)
    requires RegistryOk(b) && a.subs == b.subs
    requires forall c, t :: OpenOn(a, c, t) <==> OpenOn(b, c, t)
    ensures RegistryOk(a)
  {
    forall t | t in a.subs ensures TopicOk(a, t, a.subs[t]) {
      assert TopicOk(b, t, b.subs[t]);
    }
  }

  lemma PublishOk(b: Bus, t: Topic, line: Message)
    requires BusOk(b)
    ensures BusOk(AfterPublish(b, t, line))
  {
    PublishDelivery(b, t, line);
    RegistryFrame(AfterPublish(b, t, line), b);
  }

  // Who gets a line.
  lemma PublishReaches(b: Bus, t: Topic, line: Message)
    requires BusOk(b)
    ensures var a := AfterPublish(b, t, line);
            && a.chans.Keys == b.chans.Keys
            && forall c :: c in a.chans ==>
                 a.chans[c] == if t in b.subs && c in b.subs[t] && |b.chans[c].queue| < 64
                               then Chan(b.chans[c].queue + [line], false) else b.chans[c]
  {
    forall c | c in b.chans ensures t in b.subs && c in b.subs[t] ==> !b.chans[c].closed {
      Registered(b, c, t);
    }
  }

  lemma Registered(b: Bus, c: ChanId, t: Topic)
    requires RegistryOk(b)
    ensures c in SubsOf(b.subs, t) <==> OpenOn(b, c, t)
  {
    assert t in b.subs ==> TopicOk(b, t, b.subs[t]);
  }

  // A closed channel keeps its place in a log that grows.
  lemma PublishPassesChannel(c: Chan, i: Info, log: seq<Message>, line: Message)
    requires ChannelOk(c, i, log) && c.closed
    ensures ChannelOk(c, i, log + [line])
  {
  }

  // What a publish does to one channel and to one log.
  lemma PublishEffect(b: Bus, t: Topic, line: Message, c: ChanId)
    requires b.info.Keys == b.chans.Keys && c in b.chans
    ensures c in AfterPublish(b, t, line).chans && c in AfterPublish(b, t, line).info
    ensures AfterPublish(b, t, line).chans[c] ==
            if c in SubsOf(b.subs, t) then Offered(b.chans[c], line) else b.chans[c]
    ensures AfterPublish(b, t, line).info[c] ==
            if c in SubsOf(b.subs, t) then Noted(b.info[c], b.chans[c], line) else b.info[c]
    ensures AfterPublish(b, t, line).log == b.log[t := LogOf(b.log, t) + [line]]
  {
  }

  lemma PublishDelivery(b: Bus, t: Topic, line: Message)
    requires BusOk(b)
    ensures DeliveryOk(AfterPublish(b, t, line))
  {
    var a := AfterPublish(b, t, line);
    forall c | c in a.chans ensures ChannelOk(a.chans[c], a.info[c], LogOf(a.log, a.info[c].topic)) {
      var log := LogOf(b.log, b.info[c].topic);
      assert ChannelOk(b.chans[c], b.info[c], log);
      Registered(b, c, t);
      PublishEffect(b, t, line, c);
      if c in SubsOf(b.subs, t) {
        PublishKeepsChannel(b.chans[c], b.info[c], log, line);
      } else if b.info[c].topic == t {
        PublishPassesChannel(b.chans[c], b.info[c], log, line);
      } else {
        assert LogOf(a.log, b.info[c].topic) == log;
      }
    }
  }

  lemma SubscribeOpen(b: Bus, t: Topic, c: ChanId, d: ChanId, u: Topic)
    requires c !in b.chans
    ensures OpenOn(AfterSubscribe(b, t, c), d, u) <==> OpenOn(b, d, u) || (d == c && u == t)
  {
  }

  lemma SubscribeRegistry(b: Bus, t: Topic, c: ChanId)
    requires RegistryOk(b) && c !in b.chans
    ensures RegistryOk(AfterSubscribe(b, t, c))
  {
    var a := AfterSubscribe(b, t, c);
    forall d, u ensures OpenOn(a, d, u) <==> OpenOn(b, d, u) || (d == c && u == t) {
      SubscribeOpen(b, t, c, d, u);
    }
    forall u | u in a.subs ensures TopicOk(a, u, a.subs[u]) {
      Registered(b, c, u);
      assert u in b.subs ==> TopicOk(b, u, b.subs[u]);
    }
    forall d, u | OpenOn(a, d, u) ensures d in SubsOf(a.subs, u) {
      if d == c {
        assert a.subs[t][|a.subs[t]| - 1] == c;
      }
    }
  }

  lemma SubscribeOk(b: Bus, t: Topic, c: ChanId)
    requires BusOk(b) && c !in b.chans
    ensures BusOk(AfterSubscribe(b, t, c))
  {
    SubscribeRegistry(b, t, c);
    var a := AfterSubscribe(b, t, c);
    forall d | d in a.chans ensures ChannelOk(a.chans[d], a.info[d], LogOf(a.log, a.info[d].topic)) {
      assert d != c ==> ChannelOk(b.chans[d], b.info[d], LogOf(b.log, b.info[d].topic));
    }
  }

  lemma WithoutStep(list: seq<ChanId>, i: nat, c: ChanId)
    requires i < |list|
    ensures list[..i] + Without(list[i..], c) ==
            if list[i] == c then list[..i] + list[i + 1..] else list[..i + 1] + Without(list[i + 1..], c)
  {
    assert list[i..][1..] == list[i + 1..];
    assert list[..i + 1] == list[..i] + [list[i]];
  }

  lemma {:induction false} WithoutIs(list: seq<ChanId>, c: ChanId)
    requires Distinct(list)
    ensures Distinct(Without(list, c))
    ensures forall d :: d in Without(list, c) <==> d in list && d != c
  {
    if list != [] {
      WithoutIs(list[1..], c);
      assert list == [list[0]] + list[1..];
      if list[0] != c {
        var rest := Without(list[1..], c);
        forall j | 0 <= j < |rest| ensures rest[j] != list[0] {
          assert rest[j] in rest;
        }
      }
    }
  }

  lemma UnsubscribeOk(b: Bus, t: Topic, c: ChanId)
    requires BusOk(b) && OpenOn(b, c, t)
    ensures BusOk(AfterUnsubscribe(b, t, c))
  {
    UnsubscribeRegistry(b, t, c);
    UnsubscribeDelivery(b, t, c);
  }

  lemma UnsubscribeLists(b: Bus, t: Topic, c: ChanId)
    requires RegistryOk(b) && OpenOn(b, c, t)
    ensures var subs := AfterUnsubscribe(b, t, c).subs;
            && (forall u :: u != t ==> (u in subs <==> u in b.subs) && (u in subs ==> subs[u] == b.subs[u]))
            && (forall d :: t in subs && d in subs[t] <==> t in b.subs && d in b.subs[t] && d != c)
  {
    assert TopicOk(b, t, b.subs[t]);
    WithoutIs(b.subs[t], c);
  }

  lemma ClosingKeepsChannel(c: Chan, i: Info, log: seq<Message>)
    requires ChannelOk(c, i, log)
    ensures ChannelOk(Chan(c.queue, true), i, log)
  {
  }

  lemma UnsubscribeDelivery(b: Bus, t: Topic, c: ChanId)
    requires DeliveryOk(b) && c in b.chans
    ensures DeliveryOk(AfterUnsubscribe(b, t, c))
  {
    var a := AfterUnsubscribe(b, t, c);
    ClosingKeepsChannel(b.chans[c], b.info[c], LogOf(b.log, b.info[c].topic));
    forall d | d in a.chans ensures ChannelOk(a.chans[d], a.info[d], LogOf(a.log, a.info[d].topic)) {
      assert ChannelOk(b.chans[d], b.info[d], LogOf(b.log, b.info[d].topic));
    }
  }

  lemma UnsubscribeRegistry(b: Bus, t: Topic, c: ChanId)
    requires RegistryOk(b) && OpenOn(b, c, t)
    ensures RegistryOk(AfterUnsubscribe(b, t, c))
  {
    var a := AfterUnsubscribe(b, t, c);
    assert TopicOk(b, t, b.subs[t]);
    WithoutIs(b.subs[t], c);
    assert forall d, u :: OpenOn(a, d, u) <==> OpenOn(b, d, u) && d != c;
    forall u | u in a.subs ensures TopicOk(a, u, a.subs[u]) {
      assert TopicOk(b, u, b.subs[u]);
      assert u != t ==> forall d :: d in b.subs[u] ==> OpenOn(b, d, u) && d != c;
    }
    forall d, u | OpenOn(a, d, u) ensures d in SubsOf(a.subs, u) {
      assert d in SubsOf(b.subs, u);
    }
  }

  lemma ReceiveOpen(b: Bus, c: ChanId, d: ChanId, t: Topic)
    requires c in b.chans && c in b.info && b.chans[c].queue != []
    ensures OpenOn(AfterReceive(b, c), d, t) <==> OpenOn(b, d, t)
  {
  }

  lemma ReceiveOk(b: Bus, c: ChanId)
    requires BusOk(b) && c in b.chans
    ensures b.chans[c].queue != [] ==> BusOk(AfterReceive(b, c))
  {
    if b.chans[c].queue != [] {
      forall d, t ensures OpenOn(AfterReceive(b, c), d, t) <==> OpenOn(b, d, t) {
        ReceiveOpen(b, c, d, t);
      }
      RegistryFrame(AfterReceive(b, c), b);
      ReceiveDelivery(b, c);
    }
  }

  lemma ReceiveDelivery(b: Bus, c: ChanId)
    requires DeliveryOk(b) && c in b.chans && b.chans[c].queue != []
    ensures DeliveryOk(AfterReceive(b, c))
  {
    var a := AfterReceive(b, c);
    ReceiveKeepsChannel(b.chans[c], b.info[c], LogOf(b.log, b.info[c].topic));
    forall d | d in a.chans ensures ChannelOk(a.chans[d], a.info[d], LogOf(a.log, a.info[d].topic)) {
      assert ChannelOk(b.chans[d], b.info[d], LogOf(b.log, b.info[d].topic));
    }
  }

  lemma ReceiveKeepsChannel(c: Chan, i: Info, log: seq<Message>)
    requires ChannelOk(c, i, log) && c.queue != []
    ensures ChannelOk(c.(queue := c.queue[1..]), i.(received := i.received + [c.queue[0]]), log)
  {
    assert i.received + [c.queue[0]] + c.queue[1..] == i.received + c.queue;
  }

  // ---------------------------------------------------------------- what a subscriber gets

  // a can be obtained from b by leaving lines out.
  ghost predicate Subsequence(a: seq<Message>, b: seq<Message>) {
    exists at: seq<nat> :: Picks(a, b, at)
  }

  ghost predicate Picks(a: seq<Message>, b: seq<Message>, at: seq<nat>) {
    && |at| == |a|
    && (forall k :: 0 <= k < |at| ==> at[k] < |b| && b[at[k]] == a[k])
    && (forall j, k :: 0 <= j < k < |at| ==> at[j] < at[k])
  }

  lemma PicksMore(a: seq<Message>, b: seq<Message>, at: seq<nat>, x: Message)
    requires Picks(a, b, at)
    ensures Picks(a, b + [x], at) && Picks(a + [x], b + [x], at + [|b|])
  {
  }

  function LinesOf(offers: seq<Offer>): seq<Message> {
    seq(|offers|, k requires 0 <= k < |offers| => offers[k].line)
  }

  lemma LinesOfSnoc(offers: seq<Offer>)
    requires offers != []
    ensures var n := |offers| - 1; LinesOf(offers) == LinesOf(offers[..n]) + [offers[n].line]
  {
  }

  lemma {:induction false} TakenIsSubsequence(offers: seq<Offer>) returns (at: seq<nat>)
    ensures Picks(Taken(offers), LinesOf(offers), at)
  {
    at := [];
    if offers != [] {
      var n := |offers| - 1;
      var init := TakenIsSubsequence(offers[..n]);
      LinesOfSnoc(offers);
      PicksMore(Taken(offers[..n]), LinesOf(offers[..n]), init, offers[n].line);
      at := if offers[n].taken then init + [n] else init;
    }
  }

  lemma {:induction false} AllTaken(offers: seq<Offer>)
    requires forall k :: 0 <= k < |offers| ==> offers[k].taken
    ensures Taken(offers) == LinesOf(offers)
  {
    if offers != [] {
      AllTaken(offers[..|offers| - 1]);
      LinesOfSnoc(offers);
    }
  }

  // In order, nothing invented; and complete if the channel was never full when a line came.
  lemma SubscriberGetsInOrder(b: Bus, c: ChanId)
    requires BusOk(b) && c in b.chans && !b.chans[c].closed
    ensures var i := b.info[c];
            var since := LogOf(b.log, i.topic)[i.from..];
            && Subsequence(i.received + b.chans[c].queue, since)
            && ((forall k :: 0 <= k < |i.offers| ==> i.offers[k].queued < CAPACITY) ==>
                  i.received + b.chans[c].queue == since)
  {
    var i := b.info[c];
    var since := LogOf(b.log, i.topic)[i.from..];
    assert ChannelOk(b.chans[c], i, LogOf(b.log, i.topic));
    assert LinesOf(i.offers) == since;
    var at := TakenIsSubsequence(i.offers);
    if forall k :: 0 <= k < |i.offers| ==> i.offers[k].queued < CAPACITY {
      AllTaken(i.offers);
    }
  }

  // ---------------------------------------------------------------- sequences of operations

  datatype Op =
    | Published(topic: Topic, line: Message)
    | Subscribed(topic: Topic, chan: ChanId)
    | Unsubscribed(topic: Topic, chan: ChanId)
    | Received(chan: ChanId)

  predicate Possible(b: Bus, op: Op) {
    match op
    case Published(_, _) => b.info.Keys == b.chans.Keys
    case Subscribed(_, c) => c !in b.chans
    case Unsubscribed(t, c) => OpenOn(b, c, t)
    case Received(c) => c in b.chans && c in b.info && b.chans[c].queue != []
  }

  function After(b: Bus, op: Op): Bus
    requires Possible(b, op)
  {
    match op
    case Published(t, line) => AfterPublish(b, t, line)
    case Subscribed(t, c) => AfterSubscribe(b, t, c)
    case Unsubscribed(t, c) => AfterUnsubscribe(b, t, c)
    case Received(c) => AfterReceive(b, c)
  }

  predicate IsRun(buses: seq<Bus>, ops: seq<Op>) {
    && |buses| == |ops| + 1 && buses[0] == EmptyBus
    && forall k :: 0 <= k < |ops| ==> Possible(buses[k], ops[k]) && buses[k + 1] == After(buses[k], ops[k])
  }

  // No operation of any sequence breaks the registry or a delivery.
  lemma {:induction false} RunOk(buses: seq<Bus>, ops: seq<Op>, n: nat)
    requires IsRun(buses, ops) && n < |buses|
    ensures BusOk(buses[n])
  {
    if n > 0 {
      RunOk(buses, ops, n - 1);
      var b := buses[n - 1];
      assert Possible(b, ops[n - 1]);
      match ops[n - 1]
      case Published(t, line) => PublishOk(b, t, line);
      case Subscribed(t, c) => SubscribeOk(b, t, c);
      case Unsubscribed(t, c) => UnsubscribeOk(b, t, c);
      case Received(c) => ReceiveOk(b, c);
    }
  }

  // The lines passed to Publish for a topic, and the lines a channel's reader took, from operation i to j.
  function Sent(ops: seq<Op>, t: Topic, i: nat, j: nat): seq<Message>
    requires i <= j <= |ops|
    decreases j - i
  {
    if i == j then []
    else Sent(ops, t, i, j - 1) + if ops[j - 1].Published? && ops[j - 1].topic == t then [ops[j - 1].line] else []
  }

  function Got(buses: seq<Bus>, ops: seq<Op>, c: ChanId, i: nat, j: nat): seq<Message>
    requires IsRun(buses, ops) && i <= j <= |ops|
    decreases j - i
  {
    if i == j then []
    else
      assert Possible(buses[j - 1], ops[j - 1]);
      Got(buses, ops, c, i, j - 1) + if ops[j - 1] == Received(c) then [buses[j - 1].chans[c].queue[0]] else []
  }

  lemma LogStep(b: Bus, op: Op, t: Topic)
    requires Possible(b, op)
    ensures LogOf(After(b, op).log, t) ==
            LogOf(b.log, t) + if op.Published? && op.topic == t then [op.line] else []
  {
  }

  // The log the other laws speak of is what was passed to Publish.
  lemma {:induction false} LogIsSent(buses: seq<Bus>, ops: seq<Op>, t: Topic, n: nat)
    requires IsRun(buses, ops) && n <= |ops|
    ensures LogOf(buses[n].log, t) == Sent(ops, t, 0, n)
  {
    if n > 0 {
      LogIsSent(buses, ops, t, n - 1);
      assert Possible(buses[n - 1], ops[n - 1]) && buses[n - 1 + 1] == After(buses[n - 1], ops[n - 1]);
      LogStep(buses[n - 1], ops[n - 1], t);
    }
  }

  lemma {:induction false} SentSplit(ops: seq<Op>, t: Topic, p: nat, n: nat)
    requires p <= n <= |ops|
    ensures Sent(ops, t, 0, n) == Sent(ops, t, 0, p) + Sent(ops, t, p, n)
  {
    if p < n {
      SentSplit(ops, t, p, n - 1);
    }
  }

  predicate Reads(b: Bus, c: ChanId, t: Topic, from: nat, got: seq<Message>) {
    c in b.chans && c in b.info && b.info[c].topic == t && b.info[c].from == from && b.info[c].received == got
  }

  lemma ReadsStep(b: Bus, op: Op, c: ChanId, t: Topic, from: nat, got: seq<Message>)
    requires Possible(b, op) && Reads(b, c, t, from, got)
    ensures Reads(After(b, op), c, t, from, got + if op == Received(c) then [b.chans[c].queue[0]] else [])
  {
  }

  lemma {:induction false} ReadsSince(buses: seq<Bus>, ops: seq<Op>, p: nat, n: nat, t: Topic, c: ChanId)
    requires IsRun(buses, ops) && p < n <= |ops| && ops[p] == Subscribed(t, c)
    ensures Reads(buses[n], c, t, |Sent(ops, t, 0, p)|, Got(buses, ops, c, p + 1, n))
    decreases n
  {
    assert Possible(buses[n - 1], ops[n - 1]) && buses[n - 1 + 1] == After(buses[n - 1], ops[n - 1]);
    if n == p + 1 {
      LogIsSent(buses, ops, t, p);
    } else {
      ReadsSince(buses, ops, p, n - 1, t, c);
      ReadsStep(buses[n - 1], ops[n - 1], c, t, |Sent(ops, t, 0, p)|, Got(buses, ops, c, p + 1, n - 1));
    }
  }

  // The channel had room whenever a line of its topic came.
  ghost predicate AlwaysRoom(buses: seq<Bus>, ops: seq<Op>, p: nat, n: nat, t: Topic, c: ChanId)
    requires n < |buses| == |ops| + 1
  {
    forall k :: p < k < n && ops[k].Published? && ops[k].topic == t ==> c in buses[k].chans && |buses[k].chans[c].queue| < 64
  }

  predicate NeverFull(b: Bus, c: ChanId) {
    c in b.info && forall k :: 0 <= k < |b.info[c].offers| ==> b.info[c].offers[k].queued < CAPACITY
  }

  lemma OffersStep(b: Bus, op: Op, c: ChanId)
    requires Possible(b, op) && c in b.chans && c in b.info
    ensures c in After(b, op).info
    ensures var offers, now := b.info[c].offers, After(b, op).info[c].offers;
            now == offers || (op.Published? && c in SubsOf(b.subs, op.topic)
                              && now == offers + [Offer(op.line, |b.chans[c].queue| < CAPACITY, |b.chans[c].queue|)])
  {
  }

  lemma NeverFullStep(b: Bus, op: Op, c: ChanId)
    requires RegistryOk(b) && Possible(b, op) && c in b.chans && NeverFull(b, c)
    requires op.Published? && op.topic == b.info[c].topic ==> |b.chans[c].queue| < 64
    ensures NeverFull(After(b, op), c)
  {
    OffersStep(b, op, c);
    if op.Published? {
      Registered(b, c, op.topic);
    }
  }

  lemma {:induction false} NeverFullSince(buses: seq<Bus>, ops: seq<Op>, p: nat, n: nat, t: Topic, c: ChanId)
    requires IsRun(buses, ops) && p < n <= |ops| && ops[p] == Subscribed(t, c) && AlwaysRoom(buses, ops, p, n, t, c)
    ensures NeverFull(buses[n], c)
    decreases n
  {
    assert Possible(buses[n - 1], ops[n - 1]) && buses[n - 1 + 1] == After(buses[n - 1], ops[n - 1]);
    if n > p + 1 {
      NeverFullSince(buses, ops, p, n - 1, t, c);
      ReadsSince(buses, ops, p, n - 1, t, c);
      RunOk(buses, ops, n - 1);
      NeverFullStep(buses[n - 1], ops[n - 1], c);
    }
  }

  // What a subscriber took from its channel and can still take is, in order, part of what was
  // passed to Publish for its topic since it subscribed; all of it if the channel always had room.
  lemma SubscriberGetsWhatWasPublished(buses: seq<Bus>, ops: seq<Op>, p: nat, n: nat, t: Topic, c: ChanId)
    requires IsRun(buses, ops) && p < n <= |ops| && ops[p] == Subscribed(t, c)
    requires c in buses[n].chans && !buses[n].chans[c].closed
    ensures Subsequence(Got(buses, ops, c, p + 1, n) + buses[n].chans[c].queue, Sent(ops, t, p + 1, n))
    ensures AlwaysRoom(buses, ops, p, n, t, c) ==>
              Got(buses, ops, c, p + 1, n) + buses[n].chans[c].queue == Sent(ops, t, p + 1, n)
  {
    RunOk(buses, ops, n);
    ReadsSince(buses, ops, p, n, t, c);
    LogIsSent(buses, ops, t, n);
    SentSplit(ops, t, p, n);
    SentAfterSubscription(ops, t, p, n);
    SubscriberGetsInOrder(buses[n], c);
    if AlwaysRoom(buses, ops, p, n, t, c) {
      NeverFullSince(buses, ops, p, n, t, c);
    }
  }

  lemma {:induction false} SentAfterSubscription(ops: seq<Op>, t: Topic, p: nat, n: nat)
    requires p < n <= |ops| && ops[p].Subscribed?
    ensures Sent(ops, t, p, n) == Sent(ops, t, p + 1, n)
  {
    if n == p + 1 {
      assert Sent(ops, t, p, p) == [];
    } else {
      SentAfterSubscription(ops, t, p, n - 1);
    }
  }

  // ---------------------------------------------------------------- the class

  class Broadcaster {
    var subs: map<Topic, seq<ChanId>>
    var chans: map<ChanId, Chan>
    ghost var log: map<Topic, seq<Message>>
    ghost var info: map<ChanId, Info>

    ghost function State(): Bus
      reads this
    {
      Bus(subs, chans, log, info)
    }

    ghost predicate Valid()
      reads this
    {
      BusOk(State())
    }

    constructor ()
      ensures Valid() && State() == EmptyBus
    {
      subs, chans, log, info := map[], map[], map[], map[];
    }

    method Publish(t: Topic, line: Message)
      requires Valid()
      modifies this
      ensures Valid() && State() == AfterPublish(old(State()), t, line)
      ensures subs == old(subs) && chans.Keys == old(chans).Keys
      ensures forall c :: c in chans ==>
        chans[c] == if t in old(subs) && c in old(subs)[t] && |old(chans)[c].queue| < 64
                    then Chan(old(chans)[c].queue + [line], false) else old(chans)[c]
      ensures log == old(log)[t := (if t in old(log) then old(log)[t] else []) + [line]]
    {
      PublishOk(State(), t, line);
      PublishReaches(State(), t, line);
      assert t in subs ==> TopicOk(State(), t, subs[t]);
      OfferTo(t, line);
    }

    method OfferTo(t: Topic, line: Message)
      requires info.Keys == chans.Keys
      requires t in subs ==> Distinct(subs[t]) && forall c :: c in subs[t] ==> c in chans && !chans[c].closed
      modifies this
      ensures State() == AfterPublish(old(State()), t, line)
    {
      var list := if t in subs then subs[t] else [];
      log := log[t := LogOf(log, t) + [line]];
      info := NoteAll(info, chans, list, line);
      SendAll(list, line);
    }

    // The loop of Publish. A send to a closed channel would panic; none is closed.
    method SendAll(list: seq<ChanId>, line: Message)
      requires Distinct(list) && forall c :: c in list ==> c in chans && !chans[c].closed
      modifies this`chans
      ensures chans == OfferAll(old(chans), list, line)
    {
      var i := 0;
      while i < |list|
        invariant 0 <= i <= |list|
        invariant chans == OfferAll(old(chans), list[..i], line)
      {
        var ch := list[i];
        assert ch in list;
        assert ch !in list[..i] && list[..i + 1] == list[..i] + [ch];
        assert !chans[ch].closed;
        if |chans[ch].queue| < CAPACITY {
          chans := chans[ch := chans[ch].(queue := chans[ch].queue + [line])];
        }
        i := i + 1;
      }
      assert list[..|list|] == list;
    }

    // The channel is new: nobody else has it yet.
    method Subscribe(t: Topic, ch: ChanId)
      requires Valid() && ch !in chans
      modifies this
      ensures Valid() && State() == AfterSubscribe(old(State()), t, ch)
      ensures subs == old(subs)[t := (if t in old(subs) then old(subs)[t] else []) + [ch]]
      ensures chans == old(chans)[ch := Chan([], false)] && log == old(log)
    {
      SubscribeOk(State(), t, ch);
      info := info[ch := Info(t, |LogOf(log, t)|, [], [])];
      chans := chans[ch := Chan([], false)];
      subs := subs[t := (if t in subs then subs[t] else []) + [ch]];
    }

    // The cleanup function Subscribe returns, for the caller to invoke once: a second close would panic.
    method Unsubscribe(t: Topic, ch: ChanId)
      requires Valid() && OpenOn(State(), ch, t)
      modifies this
      ensures Valid() && State() == AfterUnsubscribe(old(State()), t, ch)
      ensures chans == old(chans)[ch := Chan(old(chans)[ch].queue, true)] && log == old(log)
      ensures forall u :: u != t ==> (u in subs <==> u in old(subs)) && (u in subs ==> subs[u] == old(subs)[u])
      ensures forall c :: t in subs && c in subs[t] <==> t in old(subs) && c in old(subs)[t] && c != ch
    {
      UnsubscribeOk(State(), t, ch);
      UnsubscribeLists(State(), t, ch);
      Drop(t, ch);
    }

    method Drop(t: Topic, ch: ChanId)
      requires ch in chans
      modifies this
      ensures State() == AfterUnsubscribe(old(State()), t, ch)
    {
      var list := Remove(if t in subs then subs[t] else [], ch);
      subs := subs[t := list];
      if list == [] {
        subs := subs - {t};
      }
      assert subs == SubsWithout(old(subs), t, ch);
      chans := chans[ch := chans[ch].(closed := true)];
    }

    method Remove(list: seq<ChanId>, ch: ChanId) returns (rest: seq<ChanId>)
      ensures rest == Without(list, ch)
    {
      var i := 0;
      while i < |list|
        invariant 0 <= i <= |list|
        invariant Without(list, ch) == list[..i] + Without(list[i..], ch)
      {
        WithoutStep(list, i, ch);
        if list[i] == ch {
          return list[..i] + list[i + 1..];
        }
        i := i + 1;
      }
      assert list[..|list|] == list;
      rest := list;
    }

    method Receive(ch: ChanId) returns (line: Message)
      requires Valid() && ch in chans && chans[ch].queue != []
      modifies this
      ensures Valid() && line == old(chans)[ch].queue[0] && State() == AfterReceive(old(State()), ch)
      ensures subs == old(subs) && log == old(log)
      ensures chans == old(chans)[ch := Chan(old(chans)[ch].queue[1..], old(chans)[ch].closed)]
    {
      ReceiveOk(State(), ch);
      line := chans[ch].queue[0];
      info := info[ch := info[ch].(received := info[ch].received + [line])];
      chans := chans[ch := chans[ch].(queue := chans[ch].queue[1..])];
    }
  }
}
