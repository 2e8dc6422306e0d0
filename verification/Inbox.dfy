/** The must-deliver inbox (src/fleet_graph/bus/inbox.py): consume, persist, only then ack; and
    why no crash loses a message. */
module Inbox {
  import opened Text

  /** One entry of a consume response; a message that is no object, or has no id, has id "". */
  datatype RawDelivery = RawDelivery(deliveryId: string, leaseToken: string, messageId: string, body: string, attempt: nat)

  datatype Response = Deliveries(deliveries: seq<RawDelivery>) | NoArray | HttpError(status: int)

  datatype Delivery = Delivery(deliveryId: string, leaseToken: string, messageId: string, body: string, attempt: nat)

  datatype InboxError = Forbidden | Malformed | BusFailure(status: int) | PersistRaised

  datatype AckOutcome = Acked | LeaseLost | AckError

  predicate Ackable(raw: RawDelivery) { raw.deliveryId != "" && raw.leaseToken != "" && raw.messageId != "" }

  function AsDelivery(raw: RawDelivery): Delivery
  {
    Delivery(raw.deliveryId, raw.leaseToken, raw.messageId, raw.body, raw.attempt)
  }

  /** The deliveries that can be acked and de-duplicated, in bus order. */
  function Drained(raw: seq<RawDelivery>): seq<Delivery>
  {
    if raw == [] then []
    else Drained(raw[..|raw| - 1]) + if Ackable(raw[|raw| - 1]) then [AsDelivery(raw[|raw| - 1])] else []
  }

  function MessagesOf(drain: seq<Delivery>): seq<string>
  {
    if drain == [] then [] else MessagesOf(drain[..|drain| - 1]) + [drain[|drain| - 1].messageId]
  }

  /** What a process does to the world, in order. */
  datatype Effect = Persisted(messages: seq<string>) | AckSent(deliveryId: string, leaseToken: string)

  function AcksOf(drain: seq<Delivery>): seq<Effect>
  {
    if drain == [] then []
    else AcksOf(drain[..|drain| - 1]) + [AckSent(drain[|drain| - 1].deliveryId, drain[|drain| - 1].leaseToken)]
  }

  /** What DrainThenAck does with a drain: persist, then ack one by one. */
  function EffectsOf(drain: seq<Delivery>): seq<Effect> { [Persisted(MessagesOf(drain))] + AcksOf(drain) }

  function OutcomeOf(status: Option<int>): AckOutcome
  {
    match status
    case None => Acked
    case Some(409) => LeaseLost
    case Some(_) => AckError
  }

  method Consume(response: Response) returns (r: Result<seq<Delivery>, InboxError>)
    ensures match response
      case HttpError(status) => r == Err(if status == 403 then Forbidden else BusFailure(status))
      case NoArray => r == Err(Malformed)
      case Deliveries(raw) => r == Ok(Drained(raw))
  {
    match response
    case HttpError(status) => return Err(if status == 403 then Forbidden else BusFailure(status));
    case NoArray => return Err(Malformed);
    case Deliveries(raw) =>
      var drain: seq<Delivery> := [];
      for i := 0 to |raw|
        invariant drain == Drained(raw[..i])
      {
        assert raw[..i + 1][..i] == raw[..i];
        if raw[i].deliveryId == "" || raw[i].leaseToken == "" { continue; }
        if raw[i].messageId == "" { continue; }
        drain := drain + [AsDelivery(raw[i])];
      }
      assert raw[..|raw|] == raw;
      r := Ok(drain);
  }

  class InboxProcess {
    var effects: seq<Effect>

    method Ack(d: Delivery, status: Option<int>) returns (outcome: AckOutcome)
      modifies this
      ensures effects == old(effects) + [AckSent(d.deliveryId, d.leaseToken)]
      ensures outcome == OutcomeOf(status)
    {
      effects := effects + [AckSent(d.deliveryId, d.leaseToken)];
      if status.None? { return Acked; }
      outcome := if status.value == 409 then LeaseLost else AckError;
    }

    /** persisted says whether the persist callback returned; statuses are the bus's answers. */
    method DrainThenAck(response: Response, persisted: bool, statuses: seq<Option<int>>)
      returns (r: Result<(seq<Delivery>, seq<AckOutcome>), InboxError>)
      requires response.Deliveries? ==> |statuses| == |Drained(response.deliveries)|
      modifies this
      ensures r.Err? ==> effects == old(effects)
      ensures r.Ok? <==> response.Deliveries? && persisted
      ensures r.Ok? ==>
        var drain := Drained(response.deliveries);
        && r.value.0 == drain && |r.value.1| == |drain|
        && (forall i :: 0 <= i < |drain| ==> r.value.1[i] == OutcomeOf(statuses[i]))
        && effects == old(effects) + EffectsOf(drain)
    {
      var consumed := Consume(response);
      if consumed.Err? { return Err(consumed.error); }
      var drain := consumed.value;
      if !persisted { return Err(PersistRaised); }
      effects := effects + [Persisted(MessagesOf(drain))];
      var outcomes: seq<AckOutcome> := [];
      for i := 0 to |drain|
        invariant |outcomes| == i && forall k :: 0 <= k < i ==> outcomes[k] == OutcomeOf(statuses[k])
        invariant effects == old(effects) + [Persisted(MessagesOf(drain))] + AcksOf(drain[..i])
      {
        assert drain[..i + 1][..i] == drain[..i];
        var outcome := Ack(drain[i], statuses[i]);
        outcomes := outcomes + [outcome];
      }
      assert drain[..|drain|] == drain;
      Regrouped(old(effects), [Persisted(MessagesOf(drain))], AcksOf(drain));
      r := Ok((drain, outcomes));
    }
  }

  /** An ack that is answered settles; of the refusals only 409 means that the lease is lost. */
  lemma OutcomesAre(status: Option<int>)
    ensures OutcomeOf(status) == Acked <==> status == None
    ensures OutcomeOf(status) == LeaseLost <==> status == Some(409)
    ensures OutcomeOf(status) == AckError <==> status.Some? && status.value != 409
  {
  }

  /** Where the ackable deliveries are, in bus order. */
  function Places(raw: seq<RawDelivery>): seq<nat>
  {
    if raw == [] then []
    else Places(raw[..|raw| - 1]) + if Ackable(raw[|raw| - 1]) then [|raw| - 1] else []
  }

  /** The k-th message drained is the k-th ackable delivery of the bus. */
  lemma {:induction false} DrainedInOrder(raw: seq<RawDelivery>, k: nat)
    ensures |Drained(raw)| == |Places(raw)|
    ensures k < |Places(raw)| ==>
      var i := Places(raw)[k];
      && i < |raw| && raw[i].deliveryId != "" && raw[i].leaseToken != "" && raw[i].messageId != ""
      && Drained(raw)[k] == Delivery(raw[i].deliveryId, raw[i].leaseToken, raw[i].messageId, raw[i].body, raw[i].attempt)
      && (k > 0 ==> Places(raw)[k - 1] < i)
  {
    if raw != [] {
      var front := raw[..|raw| - 1];
      DrainedInOrder(front, k);
      if k > 0 { DrainedInOrder(front, k - 1); }
    }
  }

  /** No ackable delivery is left out of the drain. */
  lemma {:induction false} AllAckableDrained(raw: seq<RawDelivery>, i: nat)
    requires i < |raw| && raw[i].deliveryId != "" && raw[i].leaseToken != "" && raw[i].messageId != ""
    ensures i in Places(raw)
    decreases |raw|
  {
    if i < |raw| - 1 { AllAckableDrained(raw[..|raw| - 1], i); }
  }

  // ----- the bus, and a process that may stop anywhere ----------------------

  datatype Standing = Ready | Leased(token: nat) | AckedHere | AckedElsewhere

  /** One delivery on the bus. A message without id is stored too. */
  datatype Slot = Slot(messageId: string, body: string, standing: Standing)

  /** durable is what persisting has made durable here. */
  datatype Bus = Bus(slots: seq<Slot>, tokens: nat, durable: set<string>)

  /** How a request ends: it takes effect, or it is lost on the way there. A lost answer is a
      request that took effect: nothing the process does next depends on it. */
  datatype Wire = Arrives | Lost

  /** What the bus and its other consumers do. */
  datatype Other = Arrive(messageId: string, body: string) | Expire(slot: nat) | TakenElsewhere(slot: nat) | AckElsewhere(slot: nat)

  /** Something happens elsewhere, or this process gets on with its next effect. */
  datatype Event = Others(other: Other) | Mine(wire: Wire)

  function WithStanding(b: Bus, i: nat, s: Standing): Bus
    requires i < |b.slots|
  {
    b.(slots := b.slots[i := b.slots[i].(standing := s)])
  }

  function AfterOther(b: Bus, other: Other): Bus
  {
    match other
    case Arrive(id, body) => b.(slots := b.slots + [Slot(id, body, Ready)])
    case Expire(i) => if i < |b.slots| && b.slots[i].standing.Leased? then WithStanding(b, i, Ready) else b
    case TakenElsewhere(i) =>
      if i < |b.slots| && b.slots[i].standing.Ready? then WithStanding(b, i, Leased(b.tokens)).(tokens := b.tokens + 1) else b
    case AckElsewhere(i) => if i < |b.slots| && b.slots[i].standing.Leased? then WithStanding(b, i, AckedElsewhere) else b
  }

  /** An ack settles the delivery it names while the lease it names stands, whatever has been
      persisted: only the process can keep the order. */
  function AckedSlot(s: Slot, i: nat, deliveryId: string, leaseToken: string): Slot
  {
    if deliveryId == IntText(i) && s.standing.Leased? && leaseToken == IntText(s.standing.token)
    then s.(standing := AckedHere) else s
  }

  function AsSet(messages: seq<string>): set<string>
  {
    if messages == [] then {} else AsSet(messages[..|messages| - 1]) + {messages[|messages| - 1]}
  }

  lemma {:induction false} InAsSet(messages: seq<string>, k: nat)
    requires k < |messages|
    ensures messages[k] in AsSet(messages)
  {
    if k < |messages| - 1 { InAsSet(messages[..|messages| - 1], k); }
  }

  function AfterEffect(b: Bus, e: Effect): Bus
  {
    match e
    case Persisted(messages) => b.(durable := b.durable + AsSet(messages))
    case AckSent(d, t) => b.(slots := seq(|b.slots|, i requires 0 <= i < |b.slots| => AckedSlot(b.slots[i], i, d, t)))
  }

  /** Persisting is local; an ack can get lost. */
  function AfterRequest(b: Bus, e: Effect, wire: Wire): Bus { if wire.Lost? && e.AckSent? then b else AfterEffect(b, e) }

  /** The process gets through its effects one after the other while other things happen; where the
      events end it has stopped, wherever that is. */
  function Perform(b: Bus, todo: seq<Effect>, events: seq<Event>): Bus
    decreases |events|
  {
    if events == [] then b
    else
      match events[0]
      case Others(other) => Perform(AfterOther(b, other), todo, events[1..])
      case Mine(wire) =>
        if todo == [] then Perform(b, todo, events[1..])
        else Perform(AfterRequest(b, todo[0], wire), todo[1..], events[1..])
  }

  /** The first n slots gone through: up to max ready ones leased, oldest first. */
  function Lease(b: Bus, n: nat, max: nat): (r: (Bus, seq<RawDelivery>))
    requires n <= |b.slots|
    ensures |r.0.slots| == |b.slots|
  {
    if n == 0 then (b, [])
    else
      var (leased, raw) := Lease(b, n - 1, max);
      var s := leased.slots[n - 1];
      if |raw| < max && s.standing.Ready?
      then (WithStanding(leased, n - 1, Leased(leased.tokens)).(tokens := leased.tokens + 1),
            raw + [RawDelivery(IntText(n - 1), IntText(leased.tokens), s.messageId, s.body, 0)])
      else (leased, raw)
  }

  /** One life of the process: it consumes, and then does what DrainThenAck does, as far as it gets.
      Persisting may raise, and then nothing else is done. */
  datatype Life = Life(max: nat, persisted: bool, events: seq<Event>)

  function AfterLife(b: Bus, life: Life): Bus
  {
    var (leased, raw) := Lease(b, |b.slots|, life.max);
    Perform(leased, if life.persisted then EffectsOf(Drained(raw)) else [], life.events)
  }

  const EMPTY_BUS := Bus([], 0, {})

  function Run(lives: seq<Life>): Bus
  {
    if lives == [] then EMPTY_BUS else AfterLife(Run(lives[..|lives| - 1]), lives[|lives| - 1])
  }

  // ----- what is acknowledged is durable ------------------------------------

  predicate Safe(b: Bus)
  {
    forall i :: 0 <= i < |b.slots| && b.slots[i].standing.AckedHere? ==> b.slots[i].messageId in b.durable
  }

  /** The messages that are durable once the next effect is done. */
  function SoonDurable(b: Bus, todo: seq<Effect>): set<string>
  {
    b.durable + if todo != [] && todo[0].Persisted? then AsSet(todo[0].messages) else {}
  }

  predicate Covered(b: Bus, durable: set<string>, e: Effect)
    requires e.AckSent?
  {
    forall i :: 0 <= i < |b.slots| && e.deliveryId == IntText(i) ==> b.slots[i].messageId in durable
  }

  /** Only the first effect persists; an ack is of a message that is durable or will be with it. */
  predicate OrderedAt(b: Bus, todo: seq<Effect>, k: nat)
    requires k < |todo|
  {
    && (k > 0 ==> todo[k].AckSent?)
    && (todo[k].AckSent? ==> IsSlotId(b, todo[k].deliveryId) && Covered(b, SoonDurable(b, todo), todo[k]))
  }

  predicate InOrder(b: Bus, todo: seq<Effect>)
  {
    forall k :: 0 <= k < |todo| ==> OrderedAt(b, todo, k)
  }

  predicate IsSlotId(b: Bus, deliveryId: string) { exists i :: 0 <= i < |b.slots| && deliveryId == IntText(i) }

  /** Message ids stay where they are; slots are only added. */
  predicate SameIds(b: Bus, later: Bus)
  {
    && |b.slots| <= |later.slots| && b.durable <= later.durable
    && forall i :: 0 <= i < |b.slots| ==> later.slots[i].messageId == b.slots[i].messageId
  }

  lemma OtherKeeps(b: Bus, todo: seq<Effect>, other: Other)
    requires Safe(b) && InOrder(b, todo)
    ensures Safe(AfterOther(b, other)) && InOrder(AfterOther(b, other), todo)
  {
    var later := AfterOther(b, other);
    assert SameIds(b, later) && later.durable == b.durable;
    forall k | 0 <= k < |todo| ensures OrderedAt(later, todo, k) {
      assert OrderedAt(b, todo, k);
      if todo[k].AckSent? { StillCovered(b, later, SoonDurable(b, todo), todo[k]); }
    }
  }

  lemma StillCovered(b: Bus, later: Bus, durable: set<string>, e: Effect)
    requires SameIds(b, later) && e.AckSent? && Covered(b, durable, e) && IsSlotId(b, e.deliveryId)
    ensures Covered(later, durable, e) && IsSlotId(later, e.deliveryId)
  {
    var i :| 0 <= i < |b.slots| && e.deliveryId == IntText(i);
    forall j | 0 <= j < |later.slots| && e.deliveryId == IntText(j) ensures later.slots[j].messageId in durable {
      IntTextInjective(i, j);
    }
    assert 0 <= i < |later.slots|;
  }

  lemma EffectKeeps(b: Bus, todo: seq<Effect>, wire: Wire)
    requires Safe(b) && todo != [] && InOrder(b, todo)
    ensures Safe(AfterRequest(b, todo[0], wire)) && InOrder(AfterRequest(b, todo[0], wire), todo[1..])
  {
    var e, rest, later := todo[0], todo[1..], AfterRequest(b, todo[0], wire);
    assert OrderedAt(b, todo, 0);
    assert SameIds(b, later) && |b.slots| == |later.slots|;
    assert SoonDurable(b, todo) == later.durable;
    forall k | 0 <= k < |rest| ensures OrderedAt(later, rest, k) {
      assert OrderedAt(b, todo, k + 1) && (k == 0 ==> todo[1].AckSent?) && rest[0] == todo[1];
      StillCovered(b, later, later.durable, todo[k + 1]);
    }
  }

  /** Wherever the process stops among its effects, what is acknowledged is durable. */
  lemma {:induction false} PerformKeeps(b: Bus, todo: seq<Effect>, events: seq<Event>)
    requires Safe(b) && InOrder(b, todo)
    ensures Safe(Perform(b, todo, events))
    decreases |events|
  {
    if events != [] {
      match events[0]
      case Others(other) =>
        OtherKeeps(b, todo, other);
        PerformKeeps(AfterOther(b, other), todo, events[1..]);
      case Mine(wire) =>
        if todo == [] {
          PerformKeeps(b, todo, events[1..]);
        } else {
          EffectKeeps(b, todo, wire);
          PerformKeeps(AfterRequest(b, todo[0], wire), todo[1..], events[1..]);
        }
    }
  }

  /** A delivery as the bus handed it out. */
  predicate HandedOut(b: Bus, n: nat, r: RawDelivery)
  {
    exists i :: 0 <= i < |b.slots| && i < n && IsDeliveryOf(b.slots[i], i, r)
  }

  predicate IsDeliveryOf(s: Slot, i: nat, r: RawDelivery)
  {
    && r.deliveryId == IntText(i) && r.messageId == s.messageId
    && s.standing.Leased? && r.leaseToken == IntText(s.standing.token)
  }

  /** Leasing turns ready slots into leased ones and changes nothing else. */
  lemma {:induction false} LeasedSlot(b: Bus, n: nat, max: nat, i: nat)
    requires n <= |b.slots| && i < |b.slots|
    ensures var s := Lease(b, n, max).0.slots[i];
      s == b.slots[i] || (i < n && b.slots[i].standing.Ready? && s == b.slots[i].(standing := s.standing) && s.standing.Leased?)
  {
    if n > 0 { LeasedSlot(b, n - 1, max, i); }
  }

  lemma {:induction false} LeaseKeepsDurable(b: Bus, n: nat, max: nat)
    requires n <= |b.slots|
    ensures Lease(b, n, max).0.durable == b.durable
  {
    if n > 0 { LeaseKeepsDurable(b, n - 1, max); }
  }

  /** It hands out the slots it leases. */
  lemma {:induction false} LeaseHandsOut(b: Bus, n: nat, max: nat, k: nat)
    requires n <= |b.slots| && k < |Lease(b, n, max).1|
    ensures HandedOut(Lease(b, n, max).0, n, Lease(b, n, max).1[k])
  {
    if k < |Lease(b, n - 1, max).1| {
      LeaseHandsOut(b, n - 1, max, k);
      var (before, raw) := Lease(b, n - 1, max);
      var i :| 0 <= i < |before.slots| && i < n - 1 && IsDeliveryOf(before.slots[i], i, raw[k]);
      assert IsDeliveryOf(Lease(b, n, max).0.slots[i], i, raw[k]);
    } else {
      assert IsDeliveryOf(Lease(b, n, max).0.slots[n - 1], n - 1, Lease(b, n, max).1[k]);
    }
  }

  lemma LeaseKeeps(b: Bus, max: nat)
    requires Safe(b)
    ensures Safe(Lease(b, |b.slots|, max).0)
  {
    var leased := Lease(b, |b.slots|, max).0;
    LeaseKeepsDurable(b, |b.slots|, max);
    forall i | 0 <= i < |leased.slots| && leased.slots[i].standing.AckedHere? ensures leased.slots[i].messageId in leased.durable {
      LeasedSlot(b, |b.slots|, max, i);
    }
  }

  lemma {:induction false} EffectsAt(drain: seq<Delivery>, k: nat)
    ensures |MessagesOf(drain)| == |AcksOf(drain)| == |drain|
    ensures k < |drain| ==>
      MessagesOf(drain)[k] == drain[k].messageId && AcksOf(drain)[k] == AckSent(drain[k].deliveryId, drain[k].leaseToken)
  {
    if drain != [] { EffectsAt(drain[..|drain| - 1], k); }
  }

  lemma EffectIs(drain: seq<Delivery>, k: nat)
    ensures |EffectsOf(drain)| == |drain| + 1 && EffectsOf(drain)[0] == Persisted(MessagesOf(drain))
    ensures |MessagesOf(drain)| == |drain|
    ensures k < |drain| ==>
      && EffectsOf(drain)[k + 1] == AckSent(drain[k].deliveryId, drain[k].leaseToken)
      && MessagesOf(drain)[k] == drain[k].messageId
  {
    EffectsAt(drain, k);
  }

  /** What DrainThenAck does after a consume is in order: it persists before it acks. */
  lemma EffectsInOrder(b: Bus, raw: seq<RawDelivery>)
    requires forall j :: 0 <= j < |raw| ==> HandedOut(b, |b.slots|, raw[j])
    ensures InOrder(b, EffectsOf(Drained(raw)))
  {
    forall k | 0 <= k < |EffectsOf(Drained(raw))| ensures OrderedAt(b, EffectsOf(Drained(raw)), k) {
      EffectInOrder(b, raw, k);
    }
  }

  lemma EffectInOrder(b: Bus, raw: seq<RawDelivery>, k: nat)
    requires forall j :: 0 <= j < |raw| ==> HandedOut(b, |b.slots|, raw[j])
    requires k < |EffectsOf(Drained(raw))|
    ensures OrderedAt(b, EffectsOf(Drained(raw)), k)
  {
    EffectIs(Drained(raw), 0);
    if k > 0 { AckInOrder(b, raw, k - 1); }
  }

  lemma AckInOrder(b: Bus, raw: seq<RawDelivery>, k: nat)
    requires forall j :: 0 <= j < |raw| ==> HandedOut(b, |b.slots|, raw[j])
    requires k < |Drained(raw)|
    ensures |EffectsOf(Drained(raw))| == |Drained(raw)| + 1 && OrderedAt(b, EffectsOf(Drained(raw)), k + 1)
  {
    DrainedInOrder(raw, k);
    EffectIs(Drained(raw), k);
    var j := Places(raw)[k];
    assert HandedOut(b, |b.slots|, raw[j]);
    var i :| 0 <= i < |b.slots| && IsDeliveryOf(b.slots[i], i, raw[j]);
    AckCovered(b, EffectsOf(Drained(raw)), k + 1, i);
  }

  lemma AckCovered(b: Bus, todo: seq<Effect>, k: nat, i: nat)
    requires 0 < k < |todo| && todo[k].AckSent? && todo[0].Persisted? && i < |b.slots|
    requires todo[k].deliveryId == IntText(i) && k <= |todo[0].messages| && todo[0].messages[k - 1] == b.slots[i].messageId
    ensures OrderedAt(b, todo, k)
  {
    InAsSet(todo[0].messages, k - 1);
    forall j | 0 <= j < |b.slots| && todo[k].deliveryId == IntText(j) ensures b.slots[j].messageId in SoonDurable(b, todo) {
      IntTextInjective(i, j);
    }
  }

  lemma LifeKeeps(b: Bus, life: Life)
    requires Safe(b)
    ensures Safe(AfterLife(b, life))
  {
    var (leased, raw) := Lease(b, |b.slots|, life.max);
    LeaseKeeps(b, life.max);
    forall k | 0 <= k < |raw| ensures HandedOut(leased, |leased.slots|, raw[k]) {
      LeaseHandsOut(b, |b.slots|, life.max, k);
    }
    EffectsInOrder(leased, raw);
    PerformKeeps(leased, if life.persisted then EffectsOf(Drained(raw)) else [], life.events);
  }

  /** Over every sequence of lives of the process, each stopping anywhere among the effects of
      DrainThenAck, with lost requests, expiring leases and other consumers in between: an
      acknowledged message is durable. */
  lemma {:induction false} AckedIsDurable(lives: seq<Life>)
    ensures Safe(Run(lives))
  {
    if lives != [] {
      AckedIsDurable(lives[..|lives| - 1]);
      LifeKeeps(Run(lives[..|lives| - 1]), lives[|lives| - 1]);
    }
  }

  // ----- what is not acknowledged comes again -------------------------------

  predicate Settled(s: Slot) { s.standing.AckedHere? || s.standing.AckedElsewhere? }

  /** The ready slots before n. */
  function ReadyBefore(b: Bus, n: nat): (r: nat)
    requires n <= |b.slots|
    ensures r <= n
  {
    if n == 0 then 0 else ReadyBefore(b, n - 1) + if b.slots[n - 1].standing.Ready? then 1 else 0
  }

  function Least(a: nat, b: nat): nat { if a < b then a else b }

  /** A consume leases as many slots as are ready, up to max, ... */
  lemma {:induction false} LeasedCount(b: Bus, n: nat, max: nat)
    requires n <= |b.slots|
    ensures |Lease(b, n, max).1| == Least(max, ReadyBefore(b, n))
  {
    if n > 0 {
      LeasedCount(b, n - 1, max);
      LeasedSlot(b, n - 1, max, n - 1);
    }
  }

  /** ... the first ones: a slot stays ready if max ready ones come before it. */
  lemma {:induction false} LeasedAre(b: Bus, n: nat, max: nat, i: nat)
    requires i < n <= |b.slots|
    ensures Lease(b, n, max).0.slots[i].standing.Ready? <==> b.slots[i].standing.Ready? && ReadyBefore(b, i) >= max
    decreases n
  {
    if i < n - 1 {
      LeasedAre(b, n - 1, max, i);
    } else {
      LeasedCount(b, n - 1, max);
      LeasedSlot(b, n - 1, max, n - 1);
    }
  }

  lemma {:induction false} LeasedIsHandedOut(b: Bus, n: nat, max: nat, i: nat) returns (k: nat)
    requires i < n <= |b.slots| && b.slots[i].standing.Ready? && ReadyBefore(b, i) < max
    ensures k < |Lease(b, n, max).1| && IsDeliveryOf(Lease(b, n, max).0.slots[i], i, Lease(b, n, max).1[k])
    decreases n
  {
    if i == n - 1 {
      LeasedCount(b, n - 1, max);
      LeasedSlot(b, n - 1, max, i);
      k := |Lease(b, n - 1, max).1|;
    } else {
      k := LeasedIsHandedOut(b, n - 1, max, i);
    }
  }

  function AllDone(b: Bus, todo: seq<Effect>): Bus
    decreases |todo|
  {
    if todo == [] then b else AllDone(AfterEffect(b, todo[0]), todo[1..])
  }

  function Undisturbed(n: nat): seq<Event> { if n == 0 then [] else [Mine(Arrives)] + Undisturbed(n - 1) }

  lemma {:induction false} UndisturbedDoesAll(b: Bus, todo: seq<Effect>, n: nat)
    requires |todo| <= n
    ensures Perform(b, todo, Undisturbed(n)) == AllDone(b, todo)
    decreases n
  {
    if n > 0 {
      assert Undisturbed(n)[1..] == Undisturbed(n - 1);
      if todo == [] {
        UndisturbedDoesAll(b, todo, n - 1);
      } else {
        UndisturbedDoesAll(AfterEffect(b, todo[0]), todo[1..], n - 1);
      }
    }
  }

  /** Effects touch leased slots only, ... */
  lemma {:induction false} EffectsLeave(b: Bus, todo: seq<Effect>, i: nat)
    requires i < |b.slots|
    ensures var done := AllDone(b, todo);
      && |done.slots| == |b.slots| && done.slots[i].messageId == b.slots[i].messageId
      && (!b.slots[i].standing.Leased? ==> done.slots[i] == b.slots[i])
      && (b.slots[i].standing.Leased? ==> !done.slots[i].standing.Ready?)
    decreases |todo|
  {
    if todo != [] { EffectsLeave(AfterEffect(b, todo[0]), todo[1..], i); }
  }

  /** ... and settle those that are acked under their lease. */
  lemma {:induction false} EffectsSettle(b: Bus, todo: seq<Effect>, i: nat, token: nat, k: nat)
    requires i < |b.slots| && b.slots[i].standing == Leased(token)
    requires k < |todo| && todo[k] == AckSent(IntText(i), IntText(token))
    ensures |AllDone(b, todo).slots| == |b.slots| && AllDone(b, todo).slots[i].standing.AckedHere?
    decreases |todo|
  {
    var next := AfterEffect(b, todo[0]);
    EffectsLeave(next, todo[1..], i);
    if k > 0 && next.slots[i].standing.Leased? { EffectsSettle(next, todo[1..], i, token, k - 1); }
  }

  /** A life in which nothing goes wrong. */
  function Round(b: Bus, max: nat): Life { Life(max, true, Undisturbed(|b.slots| + 1)) }

  lemma {:induction false} DrainedFew(raw: seq<RawDelivery>)
    ensures |Drained(raw)| <= |raw|
  {
    if raw != [] { DrainedFew(raw[..|raw| - 1]); }
  }

  lemma RoundIs(b: Bus, max: nat)
    ensures var (leased, raw) := Lease(b, |b.slots|, max);
      AfterLife(b, Round(b, max)) == AllDone(leased, EffectsOf(Drained(raw)))
  {
    var (leased, raw) := Lease(b, |b.slots|, max);
    LeasedCount(b, |b.slots|, max);
    DrainedFew(raw);
    EffectIs(Drained(raw), 0);
    UndisturbedDoesAll(leased, EffectsOf(Drained(raw)), |b.slots| + 1);
  }

  predicate SettledBy(b: Bus, next: Bus, max: nat, i: nat)
    requires i < |b.slots|
  {
    && |next.slots| == |b.slots| && next.slots[i].messageId == b.slots[i].messageId
    && (next.slots[i].standing.Ready? <==> b.slots[i].standing.Ready? && ReadyBefore(b, i) >= max)
    && (b.slots[i].standing.Ready? && ReadyBefore(b, i) < max && b.slots[i].messageId != "" ==> next.slots[i].standing.AckedHere?)
  }

  /** After a round a slot is ready exactly if max ready slots were before it; among the first max,
      a message with an id is acknowledged. */
  lemma RoundSettles(b: Bus, max: nat, i: nat)
    requires i < |b.slots|
    ensures SettledBy(b, AfterLife(b, Round(b, max)), max, i)
  {
    var (leased, raw) := Lease(b, |b.slots|, max);
    RoundIs(b, max);
    LeasedSlot(b, |b.slots|, max, i);
    LeasedAre(b, |b.slots|, max, i);
    EffectsLeave(leased, EffectsOf(Drained(raw)), i);
    if b.slots[i].standing.Ready? && ReadyBefore(b, i) < max && b.slots[i].messageId != "" {
      var k := LeasedIsHandedOut(b, |b.slots|, max, i);
      AllAckableDrained(raw, k);
      var j :| 0 <= j < |Places(raw)| && Places(raw)[j] == k;
      DrainedInOrder(raw, j);
      EffectIs(Drained(raw), j);
      EffectsSettle(leased, EffectsOf(Drained(raw)), i, leased.slots[i].standing.token, j + 1);
    }
  }

  lemma {:induction false} ReadyAfter(b: Bus, next: Bus, max: nat, n: nat)
    requires n <= |b.slots| == |next.slots|
    requires forall i :: 0 <= i < n ==> SettledBy(b, next, max, i)
    ensures ReadyBefore(next, n) == ReadyBefore(b, n) - Least(max, ReadyBefore(b, n))
  {
    if n > 0 {
      ReadyAfter(b, next, max, n - 1);
      assert SettledBy(b, next, max, n - 1);
    }
  }

  function Rounds(b: Bus, max: nat, n: nat): seq<Life>
    decreases n
  {
    if n == 0 then [] else [Round(b, max)] + Rounds(AfterLife(b, Round(b, max)), max, n - 1)
  }

  function After(b: Bus, lives: seq<Life>): Bus
    decreases |lives|
  {
    if lives == [] then b else After(AfterLife(b, lives[0]), lives[1..])
  }

  /** The rounds of max it takes to get through r ready slots and one more. */
  function Batches(r: nat, max: nat): nat
    requires max > 0
  {
    if r < max then 1 else Batches(r - max, max) + 1
  }

  lemma {:induction false} BatchesIs(r: nat, max: nat)
    requires max > 0
    ensures r < Batches(r, max) * max <= r + max
  {
    if r >= max {
      BatchesIs(r - max, max);
      assert Batches(r, max) * max == Batches(r - max, max) * max + max;
    }
  }

  predicate AckedAt(b: Bus, i: nat) { i < |b.slots| && b.slots[i].standing.AckedHere? }

  predicate Waits(b: Bus, i: nat) { i < |b.slots| && b.slots[i].standing.Ready? && b.slots[i].messageId != "" }

  predicate Reached(b: Bus, max: nat, i: nat, n: nat) { AckedAt(After(b, Rounds(b, max, n)), i) }

  lemma OneMoreRound(b: Bus, max: nat, i: nat, n: nat)
    requires Reached(AfterLife(b, Round(b, max)), max, i, n)
    ensures Reached(b, max, i, n + 1)
  {
    assert Rounds(b, max, n + 1)[1..] == Rounds(AfterLife(b, Round(b, max)), max, n);
  }

  lemma LastRound(b: Bus, max: nat, i: nat)
    requires Waits(b, i) && ReadyBefore(b, i) < max
    ensures Reached(b, max, i, 1)
  {
    RoundSettles(b, max, i);
    assert Rounds(AfterLife(b, Round(b, max)), max, 0) == [];
    OneMoreRound(b, max, i, 0);
  }

  lemma EarlierRound(b: Bus, max: nat, i: nat) returns (next: Bus)
    requires Waits(b, i) && ReadyBefore(b, i) >= max
    ensures next == AfterLife(b, Round(b, max)) && Waits(next, i) && ReadyBefore(next, i) == ReadyBefore(b, i) - max
  {
    next := AfterLife(b, Round(b, max));
    RoundSettles(b, max, i);
    forall j | 0 <= j < i ensures SettledBy(b, next, max, j) {
      RoundSettles(b, max, j);
    }
    ReadyAfter(b, next, max, i);
  }

  /** A waiting message is acknowledged after as many rounds as it takes to get to it. */
  lemma {:induction false} WaitingIsReached(b: Bus, max: nat, i: nat, n: nat)
    requires max > 0 && Waits(b, i) && n == Batches(ReadyBefore(b, i), max)
    ensures Reached(b, max, i, n)
    decreases n
  {
    if ReadyBefore(b, i) < max {
      LastRound(b, max, i);
    } else {
      var next := EarlierRound(b, max, i);
      WaitingIsReached(next, max, i, n - 1);
      OneMoreRound(b, max, i, n - 1);
    }
  }

  lemma {:induction false} RunAfter(lives: seq<Life>, more: seq<Life>)
    ensures Run(lives + more) == After(Run(lives), more)
    decreases |more|
  {
    if more == [] {
      assert lives + more == lives;
    } else {
      assert lives + more == (lives + [more[0]]) + more[1..];
      assert (lives + [more[0]])[..|lives|] == lives;
      RunAfter(lives + [more[0]], more[1..]);
    }
  }

  /** A message that no ack has settled is not lost, wherever the process stopped: once its lease
      has run out, rounds of any fixed size acknowledge it, and then it is durable. */
  lemma UnackedIsDelivered(lives: seq<Life>, max: nat, i: nat) returns (n: nat)
    requires max > 0 && i < |Run(lives).slots| && !Settled(Run(lives).slots[i]) && Run(lives).slots[i].messageId != ""
    ensures n * max <= i + max
    ensures var expired := lives + [Life(0, false, [Others(Expire(i))])];
      var end := Run(expired + Rounds(Run(expired), max, n));
      i < |end.slots| && end.slots[i].standing.AckedHere? && end.slots[i].messageId in end.durable
  {
    var expiry := Life(0, false, [Others(Expire(i))]);
    var expired := lives + [expiry];
    ExpiryReadies(Run(lives), i);
    assert expired[..|lives|] == lives;
    var b := Run(expired);
    n := Batches(ReadyBefore(b, i), max);
    WaitingIsReached(b, max, i, n);
    BatchesIs(ReadyBefore(b, i), max);
    RunAfter(expired, Rounds(b, max, n));
    AckedIsDurable(expired + Rounds(b, max, n));
  }

  lemma ExpiryReadies(b: Bus, i: nat)
    requires i < |b.slots| && !Settled(b.slots[i])
    ensures var next := AfterLife(b, Life(0, false, [Others(Expire(i))]));
      |next.slots| == |b.slots| && next.slots[i] == b.slots[i].(standing := Ready)
  {
    var (leased, raw) := Lease(b, |b.slots|, 0);
    LeasesNone(b, |b.slots|);
    var events := [Others(Expire(i))];
    assert events[1..] == [];
    assert Perform(b, [], events) == Perform(AfterOther(b, Expire(i)), [], []);
  }

  lemma {:induction false} LeasesNone(b: Bus, n: nat)
    requires n <= |b.slots|
    ensures Lease(b, n, 0) == (b, [])
  {
    if n > 0 { LeasesNone(b, n - 1); }
  }

  // ----- what an acknowledgement does ---------------------------------------

  /** An acknowledgement takes effect exactly on the delivery it names, if that is leased under the
      token it carries; a stale token acknowledges nothing. */
  lemma AckTakesEffect(b: Bus, deliveryId: string, leaseToken: string, i: nat)
    requires i < |b.slots|
    ensures var after := AfterEffect(b, AckSent(deliveryId, leaseToken));
      && |after.slots| == |b.slots| && after.durable == b.durable && after.slots[i].messageId == b.slots[i].messageId
      && after.slots[i].standing == (if deliveryId == IntText(i) && b.slots[i].standing.Leased?
                                        && leaseToken == IntText(b.slots[i].standing.token)
                                     then AckedHere else b.slots[i].standing)
  {
  }

  /** A delivery comes back only when its lease runs out: whatever others do, it is ready again
      exactly if it was ready and not taken, or was leased and expired. */
  lemma OthersReady(b: Bus, other: Other, i: nat)
    requires i < |b.slots|
    ensures AfterOther(b, other).slots[i].standing.Ready? <==>
      || (b.slots[i].standing.Ready? && other != TakenElsewhere(i))
      || (b.slots[i].standing.Leased? && other == Expire(i))
    ensures Settled(b.slots[i]) ==> AfterOther(b, other).slots[i] == b.slots[i]
  {
  }

  /** What is acknowledged is never delivered again: it stays as it is through the rest of any life. */
  lemma {:induction false} PerformKeepsSettled(b: Bus, todo: seq<Effect>, events: seq<Event>, i: nat)
    requires i < |b.slots| && Settled(b.slots[i])
    ensures var after := Perform(b, todo, events); i < |after.slots| && after.slots[i] == b.slots[i]
    decreases |events|
  {
    if events != [] {
      match events[0]
      case Others(other) =>
        OthersReady(b, other, i);
        PerformKeepsSettled(AfterOther(b, other), todo, events[1..], i);
      case Mine(wire) =>
        if todo == [] {
          PerformKeepsSettled(b, todo, events[1..], i);
        } else {
          PerformKeepsSettled(AfterRequest(b, todo[0], wire), todo[1..], events[1..], i);
        }
    }
  }

  lemma {:induction false} LeaseKeepsSettled(b: Bus, n: nat, max: nat, i: nat)
    requires n <= |b.slots| && i < |b.slots| && Settled(b.slots[i])
    ensures Lease(b, n, max).0.slots[i] == b.slots[i]
  {
    if n > 0 { LeaseKeepsSettled(b, n - 1, max, i); }
  }

  lemma {:induction false} AckIsFinal(b: Bus, lives: seq<Life>, i: nat)
    requires i < |b.slots| && Settled(b.slots[i])
    ensures var after := After(b, lives); i < |after.slots| && after.slots[i] == b.slots[i]
    decreases |lives|
  {
    if lives != [] {
      var (leased, raw) := Lease(b, |b.slots|, lives[0].max);
      LeaseKeepsSettled(b, |b.slots|, lives[0].max, i);
      PerformKeepsSettled(leased, if lives[0].persisted then EffectsOf(Drained(raw)) else [], lives[0].events, i);
      AckIsFinal(AfterLife(b, lives[0]), lives[1..], i);
    }
  }
}
