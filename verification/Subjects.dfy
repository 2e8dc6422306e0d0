/** What the arbiter works on (src/fleet_graph/arbiter/a2.py): open questions, blocked cards and
    consultations, read from channels that grow meanwhile. */
module Subjects {
  import opened Arbiter
  import opened BusLog
  import opened Dict
  import opened Sorting
  import opened Text

  const BLOCKED_STATUSES: set<string> := {"blocked", "awaiting_gate"}

  // ----- card heads ---------------------------------------------------------

  function CardHeads(messages: Log): Dict<string, Message>
  {
    if messages == [] then []
    else WithCard(CardHeads(messages[..|messages| - 1]), messages[|messages| - 1])
  }

  function WithCard(heads: Dict<string, Message>, m: Message): Dict<string, Message>
  {
    if m.kind == CARD_KIND && (!Has(heads, m.entity) || m.channelSeq > Get(heads, m.entity, m).channelSeq)
    then Assign(heads, m.entity, m) else heads
  }

  method ReadCardHeads(messages: Log) returns (heads: Dict<string, Message>)
    ensures heads == CardHeads(messages)
  {
    heads := [];
    for i := 0 to |messages|
      invariant heads == CardHeads(messages[..i])
    {
      assert messages[..i + 1][..i] == messages[..i];
      var m := messages[i];
      if m.kind != CARD_KIND { continue; }
      if !Has(heads, m.entity) || m.channelSeq > Get(heads, m.entity, m).channelSeq { heads := Assign(heads, m.entity, m); }
    }
    assert messages[..|messages|] == messages;
  }

  /** The last card of an entity on the channel. */
  function NewestCard(messages: Log, entity: string): Option<Message>
  {
    if messages == [] then None
    else
      var last := messages[|messages| - 1];
      if last.kind == CARD_KIND && last.entity == entity then Some(last) else NewestCard(messages[..|messages| - 1], entity)
  }

  /** The head kept for an entity is its newest card, however the cards are interleaved. */
  lemma {:induction false} HeadIsNewest(messages: Log, entity: string, default: Message)
    requires Channel(messages)
    ensures Distinct(Keys(CardHeads(messages)))
    ensures Has(CardHeads(messages), entity) <==> NewestCard(messages, entity).Some?
    ensures Has(CardHeads(messages), entity) ==>
      Some(Get(CardHeads(messages), entity, default)) == NewestCard(messages, entity)
  {
    if messages != [] {
      var front, last := messages[..|messages| - 1], messages[|messages| - 1];
      assert messages == front + [last];
      ChannelPrefix(front, messages);
      HeadIsNewest(front, entity, default);
      HeadIsNewest(front, last.entity, last);
      NewestIsEarlier(front, last.entity, last.channelSeq);
      AssignGet(CardHeads(front), last.entity, last, entity, default);
      AssignDistinct(CardHeads(front), last.entity, last);
    }
  }

  lemma {:induction false} NewestIsEarlier(messages: Log, entity: string, seqNo: nat)
    requires forall m :: m in messages ==> m.channelSeq < seqNo
    ensures NewestCard(messages, entity).Some? ==> NewestCard(messages, entity).value.channelSeq < seqNo
  {
    if messages != [] { NewestIsEarlier(messages[..|messages| - 1], entity, seqNo); }
  }

  // ----- the three classes --------------------------------------------------

  /** What the three requests of one gate lookup find. */
  datatype Gate = Gate(atRefs: Log, atHead: Log, atWindow: Log)

  type Gates = string -> Gate

  ghost predicate FairGates(gates: Gates)
  {
    forall q :: Channel(gates(q).atWindow) && Grows(gates(q).atRefs, gates(q).atHead) && Grows(gates(q).atHead, gates(q).atWindow)
  }

  predicate IsQuestion(m: Message) { m.kind == NOTE_KIND && m.payload.noteType == "question" }

  /** The gate still waits: no verdict on the question is within reach of the lookup. */
  predicate Open(gates: Gates, question: string)
  {
    NewestAnswer(gates(question).atRefs, question, WindowStart(Head(gates(question).atHead))) == None
  }

  function Questions(gates: Gates, notes: Log): seq<Subject>
  {
    if notes == [] then []
    else
      var m := notes[|notes| - 1];
      Questions(gates, notes[..|notes| - 1])
      + if IsQuestion(m) && Open(gates, m.id) then [Subject(Question, m.id, m.payload.card)] else []
  }

  function BlockedOf(heads: Dict<string, Message>): seq<Subject>
  {
    if heads == [] then []
    else
      var (entity, card) := heads[|heads| - 1];
      BlockedOf(heads[..|heads| - 1])
      + if card.payload.status in BLOCKED_STATUSES then [Subject(Blocked, entity, entity)] else []
  }

  /** mentions: the message's body names the arbiter. */
  function Consultations(mentions: Message -> bool, inbox: Log): seq<Subject>
  {
    if inbox == [] then []
    else
      var m := inbox[|inbox| - 1];
      Consultations(mentions, inbox[..|inbox| - 1])
      + if mentions(m) then [Subject(Consultation, m.id, m.payload.card)] else []
  }

  method OpenQuestions(gates: Gates, notes: Log) returns (subjects: seq<Subject>)
    requires FairGates(gates)
    ensures subjects == Questions(gates, notes)
  {
    subjects := [];
    for i := 0 to |notes|
      invariant subjects == Questions(gates, notes[..i])
    {
      assert notes[..i + 1][..i] == notes[..i];
      var m := notes[i];
      if !IsQuestion(m) { continue; }
      var g := gates(m.id);
      var decision := DecisionFor(m.id, g.atRefs, {}, g.atHead, g.atWindow);
      if decision.Some? { continue; }
      subjects := subjects + [Subject(Question, m.id, m.payload.card)];
    }
    assert notes[..|notes|] == notes;
  }

  method BlockedCards(cards: Log) returns (subjects: seq<Subject>)
    ensures subjects == BlockedOf(CardHeads(cards))
  {
    var heads := ReadCardHeads(cards);
    subjects := [];
    for i := 0 to |heads|
      invariant subjects == BlockedOf(heads[..i])
    {
      assert heads[..i + 1][..i] == heads[..i];
      if heads[i].1.payload.status !in BLOCKED_STATUSES { continue; }
      subjects := subjects + [Subject(Blocked, heads[i].0, heads[i].0)];
    }
    assert heads[..|heads|] == heads;
  }

  method Consulting(mentions: Message -> bool, inbox: Log) returns (subjects: seq<Subject>)
    ensures subjects == Consultations(mentions, inbox)
  {
    subjects := [];
    for i := 0 to |inbox|
      invariant subjects == Consultations(mentions, inbox[..i])
    {
      assert inbox[..i + 1][..i] == inbox[..i];
      if !mentions(inbox[i]) { continue; }
      subjects := subjects + [Subject(Consultation, inbox[i].id, inbox[i].payload.card)];
    }
    assert inbox[..|inbox|] == inbox;
  }

  function Collected(gates: Gates, mentions: Message -> bool, notes: Log, cards: Log, inbox: Log): seq<Subject>
  {
    Questions(gates, notes) + BlockedOf(CardHeads(cards)) + Consultations(mentions, inbox)
  }

  /** The channels as the page requests of their reads find them; no inbox without an alias. */
  datatype Board = Board(notes: seq<Log>, cards: seq<Log>, inbox: Option<seq<Log>>)

  predicate FairBoard(board: Board) { Views(board.notes) && Views(board.cards) && (board.inbox.Some? ==> Views(board.inbox.value)) }

  /** Nothing is triaged from a partial board: each channel is read whole, as of its last page, or
      the tick is refused. */
  method CollectSubjects(gates: Gates, mentions: Message -> bool, board: Board, pageSize: nat)
    returns (r: Result<seq<Subject>, ReadError>, ghost n: nat, ghost c: nat, ghost i: nat)
    requires FairGates(gates) && FairBoard(board) && pageSize > 0
    ensures r.Ok? ==>
      && CatchesUp(board.notes, pageSize, n) && CatchesUp(board.cards, pageSize, c)
      && (board.inbox.Some? ==> CatchesUp(board.inbox.value, pageSize, i))
      && r.value == Collected(gates, mentions, board.notes[n], board.cards[c], if board.inbox.Some? then board.inbox.value[i] else [])
    ensures r.Err? ==> r.error == TooManyPages
  {
    n, c, i := 0, 0, 0;
    var notes := ReadAll(board.notes, pageSize);
    if notes.Err? { return Err(notes.error), n, c, i; }
    n := LastPageOf(board.notes, pageSize, notes.value);
    var cards := ReadAll(board.cards, pageSize);
    if cards.Err? { return Err(cards.error), n, c, i; }
    c := LastPageOf(board.cards, pageSize, cards.value);
    var subjects := OpenQuestions(gates, notes.value);
    var blocked := BlockedCards(cards.value);
    subjects := subjects + blocked;
    if board.inbox.Some? {
      var inbox := ReadAll(board.inbox.value, pageSize);
      if inbox.Err? { return Err(inbox.error), n, c, i; }
      i := LastPageOf(board.inbox.value, pageSize, inbox.value);
      var consulting := Consulting(mentions, inbox.value);
      subjects := subjects + consulting;
    }
    r := Ok(subjects);
  }

  // ----- exactly these ------------------------------------------------------

  lemma {:induction false} QuestionsAre(gates: Gates, notes: Log, s: Subject)
    ensures s in Questions(gates, notes) <==>
      s.kind == Question && exists m :: m in notes && IsQuestion(m) && Open(gates, m.id) && s.id == m.id && s.card == m.payload.card
  {
    if notes != [] {
      QuestionsAre(gates, notes[..|notes| - 1], s);
      assert forall m :: m in notes <==> m in notes[..|notes| - 1] || m == notes[|notes| - 1];
    }
  }

  lemma {:induction false} BlockedAre(heads: Dict<string, Message>, s: Subject)
    ensures s in BlockedOf(heads) <==>
      s.kind == Blocked && s.card == s.id && exists e :: e in heads && e.0 == s.id && e.1.payload.status in BLOCKED_STATUSES
  {
    if heads != [] {
      BlockedAre(heads[..|heads| - 1], s);
      assert forall e :: e in heads <==> e in heads[..|heads| - 1] || e == heads[|heads| - 1];
    }
  }

  lemma {:induction false} ConsultationsAre(mentions: Message -> bool, inbox: Log, s: Subject)
    ensures s in Consultations(mentions, inbox) <==>
      s.kind == Consultation && exists m :: m in inbox && mentions(m) && s.id == m.id && s.card == m.payload.card
  {
    if inbox != [] {
      ConsultationsAre(mentions, inbox[..|inbox| - 1], s);
      assert forall m :: m in inbox <==> m in inbox[..|inbox| - 1] || m == inbox[|inbox| - 1];
    }
  }

  /** A card is a subject exactly when the newest card of its entity is blocked. */
  lemma BlockedIsNewest(cards: Log, entity: string)
    requires Channel(cards)
    ensures Subject(Blocked, entity, entity) in BlockedOf(CardHeads(cards))
      <==> NewestCard(cards, entity).Some? && NewestCard(cards, entity).value.payload.status in BLOCKED_STATUSES
  {
    var heads, s := CardHeads(cards), Subject(Blocked, entity, entity);
    var none := Message("", 0, "", "", Payload("", "", "", "", ""), {});
    BlockedAre(heads, s);
    HeadIsNewest(cards, entity, none);
    GetIsEntry(heads, entity, none);
    if e :| e in heads && e.0 == entity && e.1.payload.status in BLOCKED_STATUSES { EntryIsGet(heads, entity, e.1, none); }
  }

  /** A question note that was read is a subject of the tick exactly when every decision that
      references it, if there is any, has fallen a window behind the head that was read: no open
      question is missed, and an answered one comes up again once its answers are that old. */
  lemma QuestionIsCollected(gates: Gates, notes: Log, m: Message)
    requires FairGates(gates) && Channel(notes) && m in notes && IsQuestion(m)
    ensures Subject(Question, m.id, m.payload.card) in Questions(gates, notes)
      <==> forall d :: d in gates(m.id).atRefs && DecisionKind(d.kind) && m.id in d.refs ==>
                         d.channelSeq + WINDOW <= Head(gates(m.id).atHead)
  {
    var g := gates(m.id);
    var start := WindowStart(Head(g.atHead));
    ChannelPrefix(g.atHead, g.atWindow);
    ChannelPrefix(g.atRefs, g.atHead);
    NewestAnswerIs(g.atRefs, m.id, start);
    QuestionsAre(gates, notes, Subject(Question, m.id, m.payload.card));
    assert forall d :: d in g.atRefs ==> d.channelSeq > 0;
    assert forall d :: d in g.atRefs && DecisionKind(d.kind) && m.id in d.refs ==> (Answers(d, m.id, start) <==> d.channelSeq > start);
  }

  // ----- all of them --------------------------------------------------------

  /** An open question: a question note whose decisions, if there are any, have all fallen 1000
      behind the head that its lookup read. */
  ghost predicate OpenQuestion(gates: Gates, notes: Log, s: Subject)
  {
    s.kind == Question && exists m :: m in notes && OpenNote(gates(m.id), m) && s.id == m.id && s.card == m.payload.card
  }

  ghost predicate OpenNote(gate: Gate, m: Message)
  {
    && m.kind == "work.note.v1" && m.payload.noteType == "question"
    && forall d :: d in gate.atRefs && Decides(d, m.id) ==> d.channelSeq + 1000 <= Head(gate.atHead)
  }

  predicate Decides(d: Message, question: string)
  {
    (d.kind == "work.decision.v1" || d.kind == "work.decision.v2") && question in d.refs
  }

  /** A card that is the last of its entity and waits. */
  predicate WaitingCard(cards: Log, i: nat, entity: string)
    requires i < |cards|
  {
    && cards[i].kind == "work.card.v1" && cards[i].entity == entity
    && (cards[i].payload.status == "blocked" || cards[i].payload.status == "awaiting_gate")
    && forall j :: i < j < |cards| ==> !(cards[j].kind == "work.card.v1" && cards[j].entity == entity)
  }

  ghost predicate WaitingEntity(cards: Log, s: Subject)
  {
    s.kind == Blocked && s.card == s.id && exists i :: 0 <= i < |cards| && WaitingCard(cards, i, s.id)
  }

  ghost predicate Mentioning(mentions: Message -> bool, inbox: Log, s: Subject)
  {
    s.kind == Consultation && exists m :: m in inbox && mentions(m) && s.id == m.id && s.card == m.payload.card
  }

  lemma QuestionsAreOpen(gates: Gates, notes: Log, s: Subject)
    requires FairGates(gates) && Channel(notes)
    ensures s in Questions(gates, notes) <==> OpenQuestion(gates, notes, s)
  {
    QuestionsAre(gates, notes, s);
    forall m | m in notes ensures IsQuestion(m) && Open(gates, m.id) <==> OpenNote(gates(m.id), m) { QuestionStaysOpen(gates, m); }
  }

  lemma QuestionStaysOpen(gates: Gates, m: Message)
    requires FairGates(gates)
    ensures IsQuestion(m) && Open(gates, m.id) <==> OpenNote(gates(m.id), m)
  {
    var g := gates(m.id);
    var start := WindowStart(Head(g.atHead));
    ChannelPrefix(g.atHead, g.atWindow);
    ChannelPrefix(g.atRefs, g.atHead);
    NewestAnswerIs(g.atRefs, m.id, start);
    assert forall d :: d in g.atRefs ==> d.channelSeq > 0;
    forall d | d in g.atRefs ensures Answers(d, m.id, start) <==> Decides(d, m.id) && d.channelSeq + 1000 > Head(g.atHead) {
      AnswersAre(d, m.id, start);
    }
  }

  lemma {:induction false} NewestCardWaits(cards: Log, entity: string)
    ensures (NewestCard(cards, entity).Some? && NewestCard(cards, entity).value.payload.status in BLOCKED_STATUSES)
      <==> exists i :: 0 <= i < |cards| && WaitingCard(cards, i, entity)
  {
    if cards != [] {
      var front, last := cards[..|cards| - 1], cards[|cards| - 1];
      NewestCardWaits(front, entity);
      if last.kind == CARD_KIND && last.entity == entity {
        assert last.payload.status in BLOCKED_STATUSES <==> WaitingCard(cards, |cards| - 1, entity);
        assert forall i :: 0 <= i < |front| ==> !WaitingCard(cards, i, entity);
      } else {
        forall i | 0 <= i < |front| ensures WaitingCard(front, i, entity) <==> WaitingCard(cards, i, entity) {
          assert forall j :: i < j < |cards| ==> j < |front| || cards[j] == last;
          assert forall j :: i < j < |front| ==> front[j] == cards[j];
        }
      }
    }
  }

  lemma BlockedAreWaiting(cards: Log, s: Subject)
    requires Channel(cards)
    ensures s in BlockedOf(CardHeads(cards)) <==> WaitingEntity(cards, s)
  {
    BlockedAre(CardHeads(cards), s);
    if s.kind == Blocked && s.card == s.id {
      assert s == Subject(Blocked, s.id, s.id);
      BlockedIsNewest(cards, s.id);
      NewestCardWaits(cards, s.id);
    }
  }

  /** The tick's subjects are all three classes and nothing else: the open questions, the waiting
      cards and the messages that mention the arbiter, in this order of kinds. */
  lemma SubjectsAreAllThree(gates: Gates, mentions: Message -> bool, notes: Log, cards: Log, inbox: Log, s: Subject)
    requires FairGates(gates) && Channel(notes) && Channel(cards)
    ensures s in Collected(gates, mentions, notes, cards, inbox)
      <==> OpenQuestion(gates, notes, s) || WaitingEntity(cards, s) || Mentioning(mentions, inbox, s)
  {
    QuestionsAreOpen(gates, notes, s);
    BlockedAreWaiting(cards, s);
    ConsultationsAre(mentions, inbox, s);
  }

  function KindPlace(k: SubjectKind): nat { match k case Question => 0 case Blocked => 1 case Consultation => 2 }

  lemma SubjectsByKind(gates: Gates, mentions: Message -> bool, notes: Log, cards: Log, inbox: Log, i: nat, j: nat)
    requires i < j < |Collected(gates, mentions, notes, cards, inbox)|
    ensures var all := Collected(gates, mentions, notes, cards, inbox); KindPlace(all[i].kind) <= KindPlace(all[j].kind)
  {
    var q, b, c := Questions(gates, notes), BlockedOf(CardHeads(cards)), Consultations(mentions, inbox);
    forall s | s in q ensures s.kind == Question { QuestionsAre(gates, notes, s); }
    forall s | s in b ensures s.kind == Blocked { BlockedAre(CardHeads(cards), s); }
    forall s | s in c ensures s.kind == Consultation { ConsultationsAre(mentions, inbox, s); }
    var all := Collected(gates, mentions, notes, cards, inbox);
    KindAt(q, b, c, i);
    KindAt(q, b, c, j);
  }

  lemma KindAt(q: seq<Subject>, b: seq<Subject>, c: seq<Subject>, i: nat)
    requires i < |q + b + c|
    ensures (q + b + c)[i] in (if i < |q| then q else if i < |q| + |b| then b else c)
  {
  }
}
