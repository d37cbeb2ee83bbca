/** The hub that hands project events to connected clients through bounded queues.

    Subscribing and unsubscribing take the hub's lock exclusively.  Publishing shares it, so that the
    sends of several publications interleave: entering, each send and leaving are steps of their own. */
module RealtimeHub {
  import opened Options

  type UserId = nat
  type ProjectId = nat
  type Payload = nat
  type Id = nat
  type CallId = nat

  function MaximumConnections(): nat { 256 }
  function MaximumPerUser(): nat { 8 }
  function QueueLength(): nat { 32 }

  /** A subscription to one project, or to all projects of the user. */
  datatype Subscriber = Subscriber(user: UserId, project: Option<ProjectId>)

  datatype Publication = Publication(project: ProjectId, users: set<UserId>, payload: Payload)

  /** One attempt to send, by a call of `publish`. */
  datatype Offer = Offer(call: CallId, payload: Payload)

  /** A subscriber's queue.  History: `taken` is what the client received from it, `offers` every
      attempt to send to it in order, and `dropped` how many of them found it full. */
  datatype Channel = Channel(owner: Subscriber, queue: seq<Payload>, taken: seq<Payload>, dropped: nat, offers: seq<Offer>, open: bool)

  type Channels = map<Id, Channel>

  /** A call of `publish`: it holds the shared lock while it still has `todo` to send to. */
  datatype Call = Inside(publication: Publication, targets: set<Id>, todo: set<Id>) | Finished(publication: Publication, targets: set<Id>)

  type Calls = map<CallId, Call>

  datatype State = State(nextId: Id, subscribers: set<Id>, channels: Channels, calls: Calls)

  function Fresh(): State {
    State(0, {}, map[], map[])
  }

  predicate Wants(owner: Subscriber, p: Publication) {
    (owner.project.None? || owner.project.value == p.project) && owner.user in p.users
  }

  function OfUser(channels: Channels, subscribers: set<Id>, user: UserId): set<Id> {
    set i | i in subscribers && i in channels && channels[i].owner.user == user
  }

  function Targets(channels: Channels, subscribers: set<Id>, p: Publication): set<Id> {
    set i | i in subscribers && i in channels && Wants(channels[i].owner, p)
  }

  /** The exclusive lock is free. */
  predicate NobodyInside(calls: Calls) {
    forall c | c in calls :: calls[c].Finished?
  }

  /** A send never waits: a full queue drops the payload. */
  function Offered(c: Channel, call: CallId, payload: Payload): Channel {
    var d := c.(offers := c.offers + [Offer(call, payload)]);
    if |c.queue| < QueueLength() then d.(queue := c.queue + [payload]) else d.(dropped := c.dropped + 1)
  }

  datatype Event =
    | Subscribe(user: UserId, project: Option<ProjectId>)
    | Unsubscribe(id: Id)
    | Enter(call: CallId, publication: Publication)
    | Send(call: CallId, id: Id)
    | Leave(call: CallId)
    | Receive(id: Id)

  function Step(s: State, e: Event): State {
    match e
    case Subscribe(user, project) =>
      if !NobodyInside(s.calls) || |s.subscribers| >= MaximumConnections()
         || |OfUser(s.channels, s.subscribers, user)| >= MaximumPerUser() then s
      else
        var id := s.nextId + 1;
        State(id, s.subscribers + {id}, s.channels[id := Channel(Subscriber(user, project), [], [], 0, [], true)], s.calls)
    case Unsubscribe(id) =>
      if NobodyInside(s.calls) && id in s.channels && s.channels[id].open
      then s.(subscribers := s.subscribers - {id}, channels := s.channels[id := s.channels[id].(open := false)])
      else s
    case Enter(call, p) =>
      if call in s.calls then s
      else
        var targets := Targets(s.channels, s.subscribers, p);
        s.(calls := s.calls[call := Inside(p, targets, targets)])
    case Send(call, id) =>
      if call in s.calls && s.calls[call].Inside? && id in s.calls[call].todo && id in s.channels
      then s.(channels := s.channels[id := Offered(s.channels[id], call, s.calls[call].publication.payload)],
              calls := s.calls[call := s.calls[call].(todo := s.calls[call].todo - {id})])
      else s
    case Leave(call) =>
      if call in s.calls && s.calls[call].Inside? && s.calls[call].todo == {}
      then s.(calls := s.calls[call := Finished(s.calls[call].publication, s.calls[call].targets)]) else s
    case Receive(id) =>
      if id in s.channels && s.channels[id].queue != [] then
        var c := s.channels[id];
        s.(channels := s.channels[id := c.(queue := c.queue[1..], taken := c.taken + [c.queue[0]])])
      else s
  }

  function Run(s: State, events: seq<Event>): State {
    if events == [] then s else Step(Run(s, events[..|events| - 1]), events[|events| - 1])
  }

  // ----- streams -----

  function Payloads(offers: seq<Offer>): seq<Payload> {
    seq(|offers|, k requires 0 <= k < |offers| => offers[k].payload)
  }

  function Count(offers: seq<Offer>, call: CallId): nat {
    if offers == [] then 0
    else Count(offers[..|offers| - 1], call) + if offers[|offers| - 1].call == call then 1 else 0
  }

  /** `xs` is `ys` with some elements left out. */
  predicate IsSubsequence(xs: seq<Payload>, ys: seq<Payload>) {
    xs == [] || (ys != [] &&
      ((xs[|xs| - 1] == ys[|ys| - 1] && IsSubsequence(xs[..|xs| - 1], ys[..|ys| - 1])) || IsSubsequence(xs, ys[..|ys| - 1])))
  }

  lemma SubsequenceGrows(xs: seq<Payload>, ys: seq<Payload>, y: Payload)
    requires IsSubsequence(xs, ys)
    ensures IsSubsequence(xs + [y], ys + [y]) && IsSubsequence(xs, ys + [y])
  {
    assert (xs + [y])[..|xs|] == xs && (ys + [y])[..|ys|] == ys;
  }

  lemma {:induction false} SubsequenceLength(xs: seq<Payload>, ys: seq<Payload>)
    requires IsSubsequence(xs, ys)
    ensures |xs| <= |ys| && (|xs| == |ys| ==> xs == ys)
  {
    if xs != [] {
      if xs[|xs| - 1] == ys[|ys| - 1] && IsSubsequence(xs[..|xs| - 1], ys[..|ys| - 1]) {
        SubsequenceLength(xs[..|xs| - 1], ys[..|ys| - 1]);
      } else {
        SubsequenceLength(xs, ys[..|ys| - 1]);
      }
    }
  }

  lemma CountSnoc(offers: seq<Offer>, o: Offer, call: CallId)
    ensures Count(offers + [o], call) == Count(offers, call) + if o.call == call then 1 else 0
  {
    assert (offers + [o])[..|offers|] == offers;
  }

  // ----- the invariant -----

  /** What the client has received or will still receive is part of what was offered, in its order. */
  predicate ChannelSound(c: Channel) {
    && |c.queue| <= QueueLength()
    && IsSubsequence(c.taken + c.queue, Payloads(c.offers))
    && |c.taken| + |c.queue| + c.dropped == |c.offers|
  }

  /** The queues a call has sent to so far. */
  function Served(call: Call): set<Id> {
    match call case Inside(_, targets, todo) => targets - todo case Finished(_, targets) => targets
  }

  /** Each call is on record at a queue once if it has sent to it, and otherwise not at all. */
  ghost predicate OffersSound(id: Id, c: Channel, calls: Calls) {
    && (forall call :: Count(c.offers, call) == if call in calls && id in Served(calls[call]) then 1 else 0)
    && (forall o | o in c.offers :: o.call in calls && o.payload == calls[o.call].publication.payload && Wants(c.owner, calls[o.call].publication))
  }

  /** A call inside still has only open queues to send to that want its publication. */
  predicate CallSound(call: Call, channels: Channels, subscribers: set<Id>) {
    && (call.Inside? ==> call.todo <= call.targets <= subscribers)
    && forall i | i in call.targets :: i in channels && Wants(channels[i].owner, call.publication)
  }

  predicate WithinLimits(channels: Channels, subscribers: set<Id>, user: UserId) {
    |subscribers| <= MaximumConnections() && |OfUser(channels, subscribers, user)| <= MaximumPerUser()
  }

  ghost predicate Valid(s: State) {
    && (forall u :: WithinLimits(s.channels, s.subscribers, u))
    && (forall i | i in s.channels :: i <= s.nextId && ChannelSound(s.channels[i]) && OffersSound(i, s.channels[i], s.calls))
    && (forall i :: i in s.subscribers <==> i in s.channels && s.channels[i].open)
    && (forall c | c in s.calls :: CallSound(s.calls[c], s.channels, s.subscribers))
  }

  // ----- subscribing -----

  lemma NewConnectionCounts(s: State, c: Channel, u: UserId)
    requires Valid(s)
    ensures var id := s.nextId + 1;
            && id !in s.channels && id !in s.subscribers
            && |OfUser(s.channels[id := c], s.subscribers + {id}, u)|
               == |OfUser(s.channels, s.subscribers, u)| + if u == c.owner.user then 1 else 0
  {
    hide ChannelSound, OffersSound, CallSound;
    var id := s.nextId + 1;
    var was := OfUser(s.channels, s.subscribers, u);
    assert OfUser(s.channels[id := c], s.subscribers + {id}, u) == if u == c.owner.user then was + {id} else was;
  }

  lemma NewChannelSound(s: State, c: Channel)
    requires Valid(s) && c == Channel(c.owner, [], [], 0, [], true)
    ensures ChannelSound(c) && OffersSound(s.nextId + 1, c, s.calls)
  {
    assert c.taken + c.queue == [] && Payloads([]) == [];
    forall call | call in s.calls ensures s.nextId + 1 !in Served(s.calls[call]) {
      assert CallSound(s.calls[call], s.channels, s.subscribers);
    }
  }

  lemma SubscribeKeepsValid(s: State, user: UserId, project: Option<ProjectId>)
    requires Valid(s)
    ensures Valid(Step(s, Subscribe(user, project)))
  {
    hide ChannelSound, OffersSound, OfUser;
    var t := Step(s, Subscribe(user, project));
    if t != s {
      var id := s.nextId + 1;
      forall u ensures WithinLimits(t.channels, t.subscribers, u) {
        assert WithinLimits(s.channels, s.subscribers, u);
        NewConnectionCounts(s, t.channels[id], u);
      }
      NewConnectionCounts(s, t.channels[id], 0);
      NewChannelSound(s, t.channels[id]);
      forall c | c in s.calls ensures CallSound(s.calls[c], t.channels, t.subscribers) {
        assert CallSound(s.calls[c], s.channels, s.subscribers);
      }
    }
  }

  lemma UnsubscribeKeepsValid(s: State, id: Id)
    requires Valid(s)
    ensures Valid(Step(s, Unsubscribe(id)))
  {
    hide ChannelSound, OffersSound;
    var t := Step(s, Unsubscribe(id));
    if t != s {
      forall u ensures WithinLimits(t.channels, t.subscribers, u) {
        assert WithinLimits(s.channels, s.subscribers, u);
        assert OfUser(t.channels, t.subscribers, u) == OfUser(s.channels, s.subscribers, u) - {id};
      }
      ClosedSound(s.channels[id], id, s.calls);
      forall c | c in s.calls ensures CallSound(s.calls[c], t.channels, t.subscribers) {
        assert CallSound(s.calls[c], s.channels, s.subscribers);
      }
    }
  }

  lemma ClosedSound(c: Channel, id: Id, calls: Calls)
    requires ChannelSound(c) && OffersSound(id, c, calls)
    ensures ChannelSound(c.(open := false)) && OffersSound(id, c.(open := false), calls)
  {
  }

  // ----- publishing -----

  /** A change of the calls that no queue notices. */
  lemma CallChanges(s: State, call: CallId, after: Call)
    requires Valid(s) && CallSound(after, s.channels, s.subscribers)
    requires if call in s.calls then Served(after) == Served(s.calls[call]) && after.publication == s.calls[call].publication
             else Served(after) == {}
    ensures Valid(s.(calls := s.calls[call := after]))
  {
    hide ChannelSound;
    var calls := s.calls[call := after];
    forall i | i in s.channels ensures OffersSound(i, s.channels[i], calls) {
      assert OffersSound(i, s.channels[i], s.calls);
    }
  }

  lemma EnterKeepsValid(s: State, call: CallId, p: Publication)
    requires Valid(s)
    ensures Valid(Step(s, Enter(call, p)))
  {
    if call !in s.calls {
      var targets := Targets(s.channels, s.subscribers, p);
      CallChanges(s, call, Inside(p, targets, targets));
    }
  }

  lemma LeaveKeepsValid(s: State, call: CallId)
    requires Valid(s)
    ensures Valid(Step(s, Leave(call)))
  {
    hide ChannelSound, OffersSound;
    if call in s.calls && s.calls[call].Inside? && s.calls[call].todo == {} {
      assert CallSound(s.calls[call], s.channels, s.subscribers);
      CallChanges(s, call, Finished(s.calls[call].publication, s.calls[call].targets));
    }
  }

  lemma KeptSound(c: Channel, o: Offer)
    requires ChannelSound(c) && |c.queue| < QueueLength()
    ensures ChannelSound(c.(offers := c.offers + [o], queue := c.queue + [o.payload]))
  {
    hide IsSubsequence;
    assert Payloads(c.offers + [o]) == Payloads(c.offers) + [o.payload];
    SubsequenceGrows(c.taken + c.queue, Payloads(c.offers), o.payload);
    assert c.taken + (c.queue + [o.payload]) == c.taken + c.queue + [o.payload];
  }

  lemma DroppedSound(c: Channel, o: Offer)
    requires ChannelSound(c)
    ensures ChannelSound(c.(offers := c.offers + [o], dropped := c.dropped + 1))
  {
    hide IsSubsequence;
    assert Payloads(c.offers + [o]) == Payloads(c.offers) + [o.payload];
    SubsequenceGrows(c.taken + c.queue, Payloads(c.offers), o.payload);
  }

  lemma OfferedSound(c: Channel, call: CallId, payload: Payload)
    requires ChannelSound(c)
    ensures ChannelSound(Offered(c, call, payload))
  {
    hide ChannelSound;
    if |c.queue| < QueueLength() { KeptSound(c, Offer(call, payload)); } else { DroppedSound(c, Offer(call, payload)); }
  }

  lemma OfferRecorded(s: State, call: CallId, id: Id)
    requires Valid(s) && call in s.calls && s.calls[call].Inside? && id in s.calls[call].todo
    ensures id in s.channels && s.channels[id].open
    ensures var c := s.calls[call];
            OffersSound(id, Offered(s.channels[id], call, c.publication.payload), s.calls[call := c.(todo := c.todo - {id})])
  {
    hide ChannelSound;
    var c := s.calls[call];
    assert CallSound(c, s.channels, s.subscribers);
    assert OffersSound(id, s.channels[id], s.calls);
    var o := Offer(call, c.publication.payload);
    var calls := s.calls[call := c.(todo := c.todo - {id})];
    forall k ensures Count(s.channels[id].offers + [o], k) == if k in calls && id in Served(calls[k]) then 1 else 0 {
      CountSnoc(s.channels[id].offers, o, k);
    }
  }

  lemma OtherUnrecorded(s: State, call: CallId, id: Id, other: Id)
    requires Valid(s) && call in s.calls && s.calls[call].Inside? && id in s.calls[call].todo
    requires other in s.channels && other != id
    ensures var c := s.calls[call]; OffersSound(other, s.channels[other], s.calls[call := c.(todo := c.todo - {id})])
  {
    hide ChannelSound;
    assert OffersSound(other, s.channels[other], s.calls);
  }

  lemma SendKeepsValid(s: State, call: CallId, id: Id)
    requires Valid(s)
    ensures Valid(Step(s, Send(call, id)))
  {
    hide OffersSound, ChannelSound;
    var t := Step(s, Send(call, id));
    if t != s {
      OfferRecorded(s, call, id);
      OfferedSound(s.channels[id], call, s.calls[call].publication.payload);
      forall i | i in s.channels && i != id ensures OffersSound(i, t.channels[i], t.calls) { OtherUnrecorded(s, call, id, i); }
      forall u ensures WithinLimits(t.channels, t.subscribers, u) {
        assert WithinLimits(s.channels, s.subscribers, u);
        assert OfUser(t.channels, t.subscribers, u) == OfUser(s.channels, s.subscribers, u);
      }
      forall c | c in t.calls ensures CallSound(t.calls[c], t.channels, t.subscribers) {
        assert CallSound(s.calls[c], s.channels, s.subscribers);
      }
    }
  }

  lemma ReceivedSound(c: Channel, id: Id, calls: Calls)
    requires ChannelSound(c) && OffersSound(id, c, calls) && c.queue != []
    ensures var d := c.(queue := c.queue[1..], taken := c.taken + [c.queue[0]]);
            ChannelSound(d) && OffersSound(id, d, calls) && d.taken + d.queue == c.taken + c.queue
  {
    assert c.taken + [c.queue[0]] + c.queue[1..] == c.taken + c.queue;
  }

  lemma ReceiveKeepsValid(s: State, id: Id)
    requires Valid(s)
    ensures Valid(Step(s, Receive(id)))
  {
    hide ChannelSound, OffersSound;
    var t := Step(s, Receive(id));
    if t != s {
      ReceivedSound(s.channels[id], id, s.calls);
      forall u ensures WithinLimits(t.channels, t.subscribers, u) {
        assert WithinLimits(s.channels, s.subscribers, u);
        assert OfUser(t.channels, t.subscribers, u) == OfUser(s.channels, s.subscribers, u);
      }
      forall c | c in t.calls ensures CallSound(t.calls[c], t.channels, t.subscribers) {
        assert CallSound(s.calls[c], s.channels, s.subscribers);
      }
    }
  }

  lemma StepKeepsValid(s: State, e: Event)
    requires Valid(s)
    ensures Valid(Step(s, e))
  {
    hide Step, Valid;
    match e
    case Subscribe(user, project) => SubscribeKeepsValid(s, user, project);
    case Unsubscribe(id) => UnsubscribeKeepsValid(s, id);
    case Enter(call, p) => EnterKeepsValid(s, call, p);
    case Send(call, id) => SendKeepsValid(s, call, id);
    case Leave(call) => LeaveKeepsValid(s, call);
    case Receive(id) => ReceiveKeepsValid(s, id);
  }

  lemma FreshIsValid()
    ensures Valid(Fresh())
  {
    assert forall u :: OfUser(map[], {}, u) == {};
  }

  lemma {:induction false} RunKeepsValid(s: State, events: seq<Event>)
    requires Valid(s)
    ensures Valid(Run(s, events))
  {
    hide Step, Valid;
    if events != [] {
      RunKeepsValid(s, events[..|events| - 1]);
      StepKeepsValid(Run(s, events[..|events| - 1]), events[|events| - 1]);
    }
  }

  // ----- what it is for -----

  /** After any run: the limits hold, queues are bounded, and what a client received and still has
      queued is, in order, part of what was offered to it; it is all of it exactly when no offer
      found the queue full. */
  lemma ReceivedInOrder(events: seq<Event>, id: Id)
    requires id in Run(Fresh(), events).channels
    ensures var s := Run(Fresh(), events); var c := s.channels[id];
            && |s.subscribers| <= 256 && s.subscribers <= s.channels.Keys
            && |set i | i in s.subscribers && s.channels[i].owner.user == c.owner.user| <= 8
            && |c.queue| <= 32
            && IsSubsequence(c.taken + c.queue, Payloads(c.offers))
            && (c.taken + c.queue == Payloads(c.offers) <==> c.dropped == 0)
  {
    FreshIsValid();
    RunKeepsValid(Fresh(), events);
    var s := Run(Fresh(), events);
    var c := s.channels[id];
    assert ChannelSound(c) && WithinLimits(s.channels, s.subscribers, c.owner.user);
    assert (set i | i in s.subscribers && s.channels[i].owner.user == c.owner.user) == OfUser(s.channels, s.subscribers, c.owner.user);
    SubsequenceLength(c.taken + c.queue, Payloads(c.offers));
  }

  /** A finished publication was offered exactly once to each of its targets and to nobody else; and
      whatever was offered to a queue was wanted by its owner. */
  lemma OfferedOnce(events: seq<Event>, call: CallId, id: Id)
    requires var s := Run(Fresh(), events); call in s.calls && s.calls[call].Finished? && id in s.channels
    ensures var s := Run(Fresh(), events); var offers := s.channels[id].offers;
            && Count(offers, call) == (if id in s.calls[call].targets then 1 else 0)
            && forall o | o in offers ::
                 && o.call in s.calls && o.payload == s.calls[o.call].publication.payload
                 && s.channels[id].owner.user in s.calls[o.call].publication.users
                 && (s.channels[id].owner.project == None || s.channels[id].owner.project == Some(s.calls[o.call].publication.project))
  {
    FreshIsValid();
    RunKeepsValid(Fresh(), events);
    assert OffersSound(id, Run(Fresh(), events).channels[id], Run(Fresh(), events).calls);
  }

  /** The targets are the open queues that want the publication when it enters; while it is inside
      they all stay open, so that no send meets a closed queue. */
  lemma SendsMeetOpenQueues(events: seq<Event>, call: CallId, id: Id)
    requires var s := Run(Fresh(), events); call in s.calls && s.calls[call].Inside? && id in s.calls[call].targets
    ensures var s := Run(Fresh(), events); id in s.channels && s.channels[id].open && id in s.subscribers
  {
    FreshIsValid();
    RunKeepsValid(Fresh(), events);
    var s := Run(Fresh(), events);
    assert CallSound(s.calls[call], s.channels, s.subscribers);
  }

  lemma EnterTakesAll(s: State, call: CallId, p: Publication, id: Id)
    requires Valid(s) && call !in s.calls
    ensures var t := Step(s, Enter(call, p));
            && call in t.calls && t.calls[call].Inside? && t.calls[call].todo == t.calls[call].targets
            && t.calls[call].publication == p && t == s.(calls := t.calls)
            && (id in t.calls[call].targets <==>
                  && id in s.channels && s.channels[id].open && s.channels[id].owner.user in p.users
                  && (s.channels[id].owner.project == None || s.channels[id].owner.project == Some(p.project)))
  {
    hide ChannelSound, OffersSound, CallSound;
  }

  /** A send reaches the end of the queue unless that is full. */
  lemma SendReaches(s: State, call: CallId, id: Id)
    requires Valid(s) && call in s.calls && s.calls[call].Inside? && id in s.calls[call].todo
    ensures id in s.channels && s.channels[id].open
    ensures var c, d := s.channels[id], Step(s, Send(call, id)).channels[id];
            var payload := s.calls[call].publication.payload;
            && d.offers == c.offers + [Offer(call, payload)]
            && (if |c.queue| < 32 then d.queue == c.queue + [payload] && d.dropped == c.dropped
                else d.queue == c.queue && d.dropped == c.dropped + 1)
            && d.taken == c.taken && d.owner == c.owner && d.open
  {
    hide ChannelSound, OffersSound;
    assert CallSound(s.calls[call], s.channels, s.subscribers);
  }

  /** A subscription is refused only at a limit; otherwise it gets an identifier never used before
      and an empty open queue. */
  lemma SubscribeIsAdmitted(s: State, user: UserId, project: Option<ProjectId>)
    requires Valid(s) && NobodyInside(s.calls)
    ensures s.subscribers <= s.channels.Keys
    ensures var t := Step(s, Subscribe(user, project));
            if |s.subscribers| < 256 && |set i | i in s.subscribers && s.channels[i].owner.user == user| < 8
            then exists id :: id !in s.channels && t.subscribers == s.subscribers + {id}
                   && t.channels == s.channels[id := Channel(Subscriber(user, project), [], [], 0, [], true)]
            else t == s
  {
    hide ChannelSound, OffersSound, CallSound, Step, WithinLimits;
    SubscribeStep(s, user, project);
    assert s.nextId + 1 !in s.channels && s.subscribers <= s.channels.Keys;
    hide Valid;
    assert (set i | i in s.subscribers && s.channels[i].owner.user == user) == OfUser(s.channels, s.subscribers, user);
  }

  /** Unsubscribing closes the queue with what it holds; a client takes the oldest payload from its
      queue, also after it was closed. */
  lemma QueueRows(s: State, id: Id)
    requires id in s.channels
    ensures var c := s.channels[id];
            && (NobodyInside(s.calls) && c.open ==>
                  Step(s, Unsubscribe(id)) ==
                  s.(subscribers := s.subscribers - {id}, channels := s.channels[id := Channel(c.owner, c.queue, c.taken, c.dropped, c.offers, false)]))
            && (!c.open ==> Step(s, Unsubscribe(id)) == s)
            && (c.queue == [] ==> Step(s, Receive(id)) == s)
            && (c.queue != [] ==>
                  Step(s, Receive(id)) ==
                  s.(channels := s.channels[id := Channel(c.owner, c.queue[1..], c.taken + [c.queue[0]], c.dropped, c.offers, c.open)]))
  {
  }

  // ----- over runs -----

  /** Offers are only added; a finished call adds none, and a closed queue gets none. */
  predicate Continues(s: State, t: State, id: Id)
    requires id in s.channels
  {
    && id in t.channels && s.channels[id].offers <= t.channels[id].offers && t.channels[id].owner == s.channels[id].owner
    && (!s.channels[id].open ==>
          t.channels[id].offers == s.channels[id].offers && !t.channels[id].open && t.channels[id].dropped == s.channels[id].dropped
          && t.channels[id].taken + t.channels[id].queue == s.channels[id].taken + s.channels[id].queue)
    && (forall c | c in s.calls && s.calls[c].Finished? ::
          c in t.calls && t.calls[c] == s.calls[c] && forall o | o in t.channels[id].offers[|s.channels[id].offers|..] :: o.call != c)
  }

  lemma SendContinues(s: State, call: CallId, to: Id, id: Id)
    requires id in s.channels && call in s.calls && s.calls[call].Inside? && to in s.calls[call].todo
    requires to in s.channels && s.channels[to].open
    ensures Continues(s, Step(s, Send(call, to)), id)
  {
  }

  lemma ReceiveContinues(s: State, from: Id, id: Id)
    requires id in s.channels
    ensures Continues(s, Step(s, Receive(from)), id)
  {
    if from in s.channels && s.channels[from].queue != [] {
      var c := s.channels[from];
      assert c.taken + [c.queue[0]] + c.queue[1..] == c.taken + c.queue;
    }
  }

  lemma QuietContinues(s: State, e: Event, id: Id)
    requires Valid(s) && id in s.channels && !e.Send? && !e.Receive?
    ensures Continues(s, Step(s, e), id)
  {
    hide ChannelSound, OffersSound, CallSound, OfUser, Targets, WithinLimits;
  }

  lemma StepContinues(s: State, e: Event, id: Id)
    requires Valid(s) && id in s.channels
    ensures Continues(s, Step(s, e), id)
  {
    hide Step, Continues, ChannelSound, OffersSound;
    if e.Send? && e.call in s.calls && s.calls[e.call].Inside? && e.id in s.calls[e.call].todo {
      assert CallSound(s.calls[e.call], s.channels, s.subscribers);
      SendContinues(s, e.call, e.id, id);
    } else if e.Send? {
      NothingSent(s, e.call, e.id);
      ContinuesReflexive(s, id);
    } else if e.Receive? {
      ReceiveContinues(s, e.id, id);
    } else {
      QuietContinues(s, e, id);
    }
  }

  lemma NothingSent(s: State, call: CallId, to: Id)
    requires !(call in s.calls && s.calls[call].Inside? && to in s.calls[call].todo)
    ensures Step(s, Send(call, to)) == s
  {
  }

  lemma ContinuesTransitive(s: State, t: State, u: State, id: Id)
    requires id in s.channels && Continues(s, t, id) && Continues(t, u, id)
    ensures Continues(s, u, id)
  {
    var a, b, c := s.channels[id].offers, t.channels[id].offers, u.channels[id].offers;
    assert c[|a|..] == b[|a|..] + c[|b|..];
  }

  lemma {:induction false} RunContinues(s: State, events: seq<Event>, id: Id)
    requires Valid(s) && id in s.channels
    ensures Continues(s, Run(s, events), id)
  {
    hide Step, Valid, Continues;
    if events == [] {
      ContinuesReflexive(s, id);
    } else {
      var before, e := Run(s, events[..|events| - 1]), events[|events| - 1];
      RunContinues(s, events[..|events| - 1], id);
      RunKeepsValid(s, events[..|events| - 1]);
      ChannelStays(s, before, id);
      StepContinues(before, e, id);
      ContinuesTransitive(s, before, Run(s, events), id);
    }
  }

  lemma ContinuesReflexive(s: State, id: Id)
    requires id in s.channels
    ensures Continues(s, s, id)
  {
  }

  lemma ChannelStays(s: State, t: State, id: Id)
    requires id in s.channels && Continues(s, t, id)
    ensures id in t.channels
  {
  }

  /** A queue that was closed is never sent to again, in any run. */
  lemma ClosedStaysClosed(s: State, events: seq<Event>, id: Id)
    requires Valid(s) && id in s.channels && !s.channels[id].open
    ensures var t := Run(s, events);
            && id in t.channels && !t.channels[id].open && t.channels[id].offers == s.channels[id].offers
            && t.channels[id].taken + t.channels[id].queue == s.channels[id].taken + s.channels[id].queue
  {
    hide Valid, Run;
    RunContinues(s, events, id);
  }

  /** Where calls do not overlap their order is the same for everybody: a call that enters after
      another has left comes after it in every queue. */
  lemma LaterCallsComeLater(s: State, events: seq<Event>, id: Id, first: CallId, second: CallId)
    requires Valid(s) && id in s.channels && first in s.calls && s.calls[first].Finished? && second !in s.calls
    ensures var t := Run(s, events);
            && id in t.channels
            && forall j, k | 0 <= j < |t.channels[id].offers| && 0 <= k < |t.channels[id].offers|
                             && t.channels[id].offers[j].call == first && t.channels[id].offers[k].call == second :: j < k
  {
    hide ChannelSound, Run, Step;
    RunContinues(s, events, id);
    var a, b := s.channels[id].offers, Run(s, events).channels[id].offers;
    assert OffersSound(id, s.channels[id], s.calls);
    assert forall j | |a| <= j < |b| :: b[j] == b[|a|..][j - |a|] && b[j] in b[|a|..];
    assert forall k | 0 <= k < |a| :: b[k] == a[k] && a[k] in a;
  }

  function Crossing(): seq<Event> {
    [Subscribe(1, None), Subscribe(2, None), Enter(1, Publication(0, {1, 2}, 1)), Enter(2, Publication(0, {1, 2}, 2)),
     Send(1, 1), Send(2, 1), Send(2, 2), Send(1, 2)]
  }

  /** Two publications that overlap can reach two clients in opposite orders. */
  lemma OverlappingCallsMayCross()
    ensures var s := Run(Fresh(), Crossing());
            1 in s.channels && 2 in s.channels && s.channels[1].queue == [1, 2] && s.channels[2].queue == [2, 1]
  {
    var e, c := Crossing(), (owner: Subscriber) => Channel(owner, [], [], 0, [], true);
    var a, b := Subscriber(1, None), Subscriber(2, None);
    var p, q := Publication(0, {1, 2}, 1), Publication(0, {1, 2}, 2);
    assert OfUser(map[], {}, 1) == {};
    var s2 := State(2, {1, 2}, map[1 := c(a), 2 := c(b)], map[]);
    assert OfUser(map[1 := c(a)], {1}, 2) == {};
    assert Step(Step(Fresh(), e[0]), e[1]) == s2;
    assert Targets(s2.channels, s2.subscribers, p) == {1, 2} && Targets(s2.channels, s2.subscribers, q) == {1, 2};
    var s4 := s2.(calls := map[1 := Inside(p, {1, 2}, {1, 2}), 2 := Inside(q, {1, 2}, {1, 2})]);
    assert Step(Step(s2, e[2]), e[3]) == s4;
    CrossingSends(s4, e);
    EightSteps(Fresh(), e);
  }

  lemma CrossingSends(s: State, e: seq<Event>)
    requires e == Crossing() && 1 in s.channels && 2 in s.channels && s.channels[1].queue == [] && s.channels[2].queue == []
    requires s.calls == map[1 := Inside(Publication(0, {1, 2}, 1), {1, 2}, {1, 2}), 2 := Inside(Publication(0, {1, 2}, 2), {1, 2}, {1, 2})]
    ensures var t := Step(Step(Step(Step(s, e[4]), e[5]), e[6]), e[7]);
            1 in t.channels && 2 in t.channels && t.channels[1].queue == [1, 2] && t.channels[2].queue == [2, 1]
  {
    var s5 := Step(s, e[4]);
    var s6 := Step(s5, e[5]);
    assert s6.channels[1].queue == [1, 2] && s6.channels[2].queue == [];
    var s7 := Step(s6, e[6]);
    assert s7.channels[2].queue == [2];
  }

  lemma EightSteps(s: State, e: seq<Event>)
    requires |e| == 8
    ensures Run(s, e) == Step(Step(Step(Step(Step(Step(Step(Step(s, e[0]), e[1]), e[2]), e[3]), e[4]), e[5]), e[6]), e[7])
  {
    hide Step;
    assert e[..7][..6] == e[..6] && e[..6][..5] == e[..5] && e[..5][..4] == e[..4] && e[..4][..3] == e[..3];
    assert e[..3][..2] == e[..2] && e[..2][..1] == e[..1] && e[..1][..0] == [];
    assert Run(s, e[..2]) == Step(Run(s, e[..1]), e[1]) && Run(s, e[..1]) == Step(s, e[0]);
    assert Run(s, e[..4]) == Step(Run(s, e[..3]), e[3]) && Run(s, e[..3]) == Step(Run(s, e[..2]), e[2]);
    assert Run(s, e[..6]) == Step(Run(s, e[..5]), e[5]) && Run(s, e[..5]) == Step(Run(s, e[..4]), e[4]);
  }

  // ----- the hub -----

  /** A call of `publish` that sends in the order `order`. */
  function PublishEvents(call: CallId, p: Publication, order: seq<Id>): seq<Event> {
    [Enter(call, p)] + SendEvents(call, order) + [Leave(call)]
  }

  function SendEvents(call: CallId, order: seq<Id>): seq<Event> {
    seq(|order|, k requires 0 <= k < |order| => Send(call, order[k]))
  }

  class Hub {
    var nextId: Id
    var subscribers: set<Id>
    var channels: Channels
    /** The calls inside hold the shared lock; the finished ones are history. */
    var calls: Calls

    ghost function Abs(): State
      reads this
    {
      State(nextId, subscribers, channels, calls)
    }

    constructor ()
      ensures Abs() == Fresh() && Valid(Abs())
    {
      nextId, subscribers, channels, calls := 0, {}, map[], map[];
      new;
      FreshIsValid();
    }

    method CountConnections(user: UserId) returns (n: nat)
      requires subscribers <= channels.Keys
      ensures n == |OfUser(channels, subscribers, user)|
    {
      n := 0;
      var rest := subscribers;
      ghost var counted: set<Id> := {};
      while rest != {}
        invariant rest <= subscribers && n == |counted|
        invariant counted == set i | i in OfUser(channels, subscribers, user) && i !in rest
        decreases rest
      {
        var i :| i in rest;
        rest := rest - {i};
        if channels[i].owner.user == user {
          n := n + 1;
          counted := counted + {i};
        }
      }
      assert counted == OfUser(channels, subscribers, user);
    }

    /** Under the exclusive lock. */
    method Subscribe(user: UserId, project: Option<ProjectId>) returns (id: Option<Id>)
      requires Valid(Abs()) && NobodyInside(calls)
      modifies this
      ensures Valid(Abs()) && Abs() == Step(old(Abs()), Event.Subscribe(user, project))
      ensures id.Some? <==> |old(subscribers)| < 256 && |old(OfUser(channels, subscribers, user))| < 8
      ensures id.Some? ==> id.value !in old(channels) && id.value in subscribers
    {
      hide Valid, Step, OfUser;
      SubscribeKeepsValid(Abs(), user, project);
      NewConnectionCounts(Abs(), Channel(Subscriber(user, project), [], [], 0, [], true), user);
      SubscribersAreOpen(Abs());
      SubscribeStep(Abs(), user, project);
      if |subscribers| >= MaximumConnections() { return None; }
      var connections := CountConnections(user);
      if connections >= MaximumPerUser() { return None; }
      nextId := nextId + 1;
      channels := channels[nextId := Channel(Subscriber(user, project), [], [], 0, [], true)];
      subscribers := subscribers + {nextId};
      id := Some(nextId);
    }

    /** The closure returned to the subscriber, under the exclusive lock; only its first call does
        anything. */
    method Unsubscribe(id: Id)
      requires Valid(Abs()) && NobodyInside(calls)
      modifies this
      ensures Valid(Abs()) && Abs() == Step(old(Abs()), Event.Unsubscribe(id))
    {
      hide Valid;
      UnsubscribeKeepsValid(Abs(), id);
      if id in channels && channels[id].open {
        subscribers := subscribers - {id};
        channels := channels[id := channels[id].(open := false)];
      }
    }

    /** Sending to a closed queue would be a fault; a full one drops the payload. */
    method SendTo(call: CallId, id: Id)
      requires Valid(Abs()) && call in calls && calls[call].Inside? && id in calls[call].todo
      requires id in channels && channels[id].open
      modifies this`channels, this`calls
      ensures Valid(Abs()) && Abs() == Step(old(Abs()), Send(call, id))
      ensures call in calls && calls[call] == old(calls)[call].(todo := old(calls)[call].todo - {id})
      ensures channels.Keys == old(channels).Keys && forall i | i in channels :: channels[i].owner == old(channels)[i].owner
    {
      hide Valid, Step, Offered;
      SendKeepsValid(Abs(), call, id);
      SendStep(Abs(), call, id);
      var c, payload := channels[id], calls[call].publication.payload;
      var d := c.(offers := c.offers + [Offer(call, payload)]);
      if |c.queue| < QueueLength() {
        d := d.(queue := c.queue + [payload]);
      } else {
        d := d.(dropped := c.dropped + 1);
      }
      OfferedIs(c, call, payload);
      channels := channels[id := d];
      calls := calls[call := calls[call].(todo := calls[call].todo - {id})];
    }

    /** One call of `publish`, with whatever other calls are inside. */
    method Publish(call: CallId, p: Publication) returns (ghost order: seq<Id>)
      requires Valid(Abs()) && call !in calls
      modifies this
      ensures Valid(Abs()) && Abs() == Run(old(Abs()), PublishEvents(call, p, order))
      ensures call in calls && calls[call] == Finished(p, Targets(old(channels), old(subscribers), p))
    {
      hide Step, Run, Valid;
      ghost var before := Abs();
      var targets := Targets(channels, subscribers, p);
      EnterKeepsValid(before, call, p);
      EnterStep(before, call, p);
      calls := calls[call := Inside(p, targets, targets)];
      order := [];
      RunEnter(before, call, p);
      var rest := subscribers;
      SubscribersAreOpen(Abs());
      while rest != {}
        invariant rest <= subscribers && Valid(Abs())
        invariant Abs() == Run(before, [Enter(call, p)] + SendEvents(call, order))
        invariant call in calls && calls[call] == Inside(p, targets, targets * rest)
        invariant subscribers <= channels.Keys
        invariant forall i | i in subscribers :: i in targets <==> Wants(channels[i].owner, p)
        decreases rest
      {
        var i :| i in rest;
        rest := rest - {i};
        var owner := channels[i].owner;
        SubscribersAreOpen(Abs());
        assert targets * (rest + {i}) == if i in targets then targets * rest + {i} else targets * rest;
        if owner.project.Some? && owner.project.value != p.project { continue; }
        if owner.user !in p.users { continue; }
        RunSend(before, call, p, order, i);
        SendTo(call, i);
        order := order + [i];
      }
      LeaveKeepsValid(Abs(), call);
      LeaveStep(Abs(), call);
      RunLeave(before, call, p, order);
      calls := calls[call := Finished(p, targets)];
    }

    method Receive(id: Id) returns (payload: Option<Payload>)
      requires Valid(Abs()) && id in channels
      modifies this
      ensures Valid(Abs()) && Abs() == Step(old(Abs()), Event.Receive(id))
      ensures payload == if old(channels)[id].queue == [] then None else Some(old(channels)[id].queue[0])
    {
      hide Valid;
      ReceiveKeepsValid(Abs(), id);
      var c := channels[id];
      if c.queue == [] { return None; }
      channels := channels[id := c.(queue := c.queue[1..], taken := c.taken + [c.queue[0]])];
      payload := Some(c.queue[0]);
    }
  }

  lemma SubscribersAreOpen(s: State)
    requires Valid(s)
    ensures forall i :: i in s.subscribers <==> i in s.channels && s.channels[i].open
  {
  }

  lemma EnterStep(s: State, call: CallId, p: Publication)
    requires call !in s.calls
    ensures var targets := Targets(s.channels, s.subscribers, p);
            Step(s, Enter(call, p)) == s.(calls := s.calls[call := Inside(p, targets, targets)])
  {
  }

  lemma OfferedIs(c: Channel, call: CallId, payload: Payload)
    ensures var d := c.(offers := c.offers + [Offer(call, payload)]);
            Offered(c, call, payload)
            == if |c.queue| < QueueLength() then d.(queue := c.queue + [payload]) else d.(dropped := c.dropped + 1)
    ensures Offered(c, call, payload).owner == c.owner
  {
  }

  lemma SendStep(s: State, call: CallId, id: Id)
    requires call in s.calls && s.calls[call].Inside? && id in s.calls[call].todo && id in s.channels
    ensures Step(s, Send(call, id)) ==
            s.(channels := s.channels[id := Offered(s.channels[id], call, s.calls[call].publication.payload)],
               calls := s.calls[call := s.calls[call].(todo := s.calls[call].todo - {id})])
  {
  }

  lemma SubscribeStep(s: State, user: UserId, project: Option<ProjectId>)
    requires NobodyInside(s.calls)
    ensures var id := s.nextId + 1;
            Step(s, Subscribe(user, project)) ==
            if |s.subscribers| < MaximumConnections() && |OfUser(s.channels, s.subscribers, user)| < MaximumPerUser()
            then State(id, s.subscribers + {id}, s.channels[id := Channel(Subscriber(user, project), [], [], 0, [], true)], s.calls)
            else s
  {
    hide OfUser;
  }

  lemma LeaveStep(s: State, call: CallId)
    requires call in s.calls && s.calls[call].Inside? && s.calls[call].todo == {}
    ensures Step(s, Leave(call)) == s.(calls := s.calls[call := Finished(s.calls[call].publication, s.calls[call].targets)])
  {
  }

  lemma RunSnoc(s: State, events: seq<Event>, e: Event)
    ensures Run(s, events + [e]) == Step(Run(s, events), e)
  {
    assert (events + [e])[..|events|] == events;
  }

  lemma RunEnter(s: State, call: CallId, p: Publication)
    ensures Run(s, [Enter(call, p)] + SendEvents(call, [])) == Step(s, Enter(call, p))
  {
    hide Step;
    RunSnoc(s, [], Enter(call, p));
    assert [Enter(call, p)] + SendEvents(call, []) == [] + [Enter(call, p)];
  }

  lemma RunSend(s: State, call: CallId, p: Publication, order: seq<Id>, id: Id)
    ensures Run(s, [Enter(call, p)] + SendEvents(call, order + [id]))
            == Step(Run(s, [Enter(call, p)] + SendEvents(call, order)), Send(call, id))
  {
    hide Step;
    RunSnoc(s, [Enter(call, p)] + SendEvents(call, order), Send(call, id));
    assert [Enter(call, p)] + SendEvents(call, order + [id]) == [Enter(call, p)] + SendEvents(call, order) + [Send(call, id)];
  }

  lemma RunLeave(s: State, call: CallId, p: Publication, order: seq<Id>)
    ensures Run(s, PublishEvents(call, p, order)) == Step(Run(s, [Enter(call, p)] + SendEvents(call, order)), Leave(call))
  {
    hide Step;
    RunSnoc(s, [Enter(call, p)] + SendEvents(call, order), Leave(call));
  }
}
