/** The bus as its readers see it: append-only channels, paged reads and a reference index, with
    other writers appending between any two requests (src/fleet_graph/bus/client.py). */
module BusLog {
  import opened Text

  const CARD_KIND := "work.card.v1"
  const NOTE_KIND := "work.note.v1"
  const DECISION_KIND := "work.decision.v1"
  const DECISION_KIND_V2 := "work.decision.v2"

  /** A missing payload field reads as "". */
  datatype Payload = Payload(card: string, note: string, noteType: string, status: string, decision: string)

  datatype Message = Message(
    id: string, channelSeq: nat, kind: string, entity: string, payload: Payload, refs: set<string>)

  type Log = seq<Message>

  /** A channel: sequence numbers ascend from 1, gaps allowed, and ids are unique. */
  predicate Channel(log: Log)
  {
    && (forall i :: 0 <= i < |log| ==> log[i].channelSeq > 0)
    && (forall i, j :: 0 <= i < j < |log| ==> log[i].channelSeq < log[j].channelSeq)
    && (forall i, j :: 0 <= i < j < |log| ==> log[i].id != log[j].id)
  }

  function Head(log: Log): nat { if log == [] then 0 else log[|log| - 1].channelSeq }

  /** How many messages of the channel lie at or before a sequence number. */
  function Behind(log: Log, after: nat): (n: nat)
    ensures n <= |log|
  {
    if log == [] || log[0].channelSeq > after then 0 else 1 + Behind(log[1..], after)
  }

  /** messages(limit, after_seq): the ascending page after a sequence number. */
  function Page(log: Log, limit: nat, after: nat): Log
  {
    var n := Behind(log, after);
    if n + limit <= |log| then log[n..n + limit] else log[n..]
  }

  /** Other writers only append. */
  predicate Grows(log: Log, later: Log) { log <= later }

  lemma {:induction false} BehindExact(log: Log, after: nat, n: nat)
    requires Channel(log) && n <= |log|
    requires n > 0 ==> log[n - 1].channelSeq <= after
    requires n < |log| ==> log[n].channelSeq > after
    ensures Behind(log, after) == n
  {
    if log != [] && n > 0 {
      assert n > 1 ==> log[0].channelSeq < log[n - 1].channelSeq;
      ChannelTail(log);
      BehindExact(log[1..], after, n - 1);
    }
  }

  lemma ChannelTail(log: Log)
    requires Channel(log) && log != []
    ensures Channel(log[1..])
  {
  }

  lemma ChannelPrefix(log: Log, later: Log)
    requires Channel(later) && Grows(log, later)
    ensures Channel(log) && Head(log) <= Head(later)
  {
    assert forall i :: 0 <= i < |log| ==> log[i] == later[i];
  }

  lemma {:induction false} BehindSplits(log: Log, after: nat)
    requires Channel(log)
    ensures var n := Behind(log, after);
      (n > 0 ==> log[n - 1].channelSeq <= after) && (n < |log| ==> log[n].channelSeq > after)
  {
    if log != [] && log[0].channelSeq <= after {
      ChannelTail(log);
      BehindSplits(log[1..], after);
    }
  }

  /** k messages further on, the sequence number is at least k higher. */
  lemma {:induction false} SeqSpread(log: Log, i: nat, j: nat)
    requires Channel(log) && i <= j < |log|
    ensures log[j].channelSeq >= log[i].channelSeq + (j - i)
  {
    if i < j { SeqSpread(log, i, j - 1); }
  }

  /** A page is the channel's messages past a sequence number, the oldest first, up to the limit:
      it skips none of them and is short only when there are no more. */
  lemma PageSkipsNone(log: Log, limit: nat, after: nat, i: nat)
    requires Channel(log) && i < |log| && log[i].channelSeq > after
    ensures var page := Page(log, limit, after);
      log[i] in page || (|page| == limit && forall k :: 0 <= k < limit ==> after < page[k].channelSeq < log[i].channelSeq)
  {
    var n, page := Behind(log, after), Page(log, limit, after);
    BehindSplits(log, after);
    assert forall j :: 0 <= j < n ==> log[j].channelSeq <= after;
    if i < n + |page| {
      assert page[i - n] == log[i];
    } else {
      forall k | 0 <= k < limit ensures after < page[k].channelSeq < log[i].channelSeq { assert page[k] == log[n + k]; }
    }
  }

  // ----- reading a whole channel (src/fleet_graph/arbiter/a2.py) -------------

  datatype ReadError = PartialPage | TooManyPages

  /** The views of the page requests: the channel as each of them finds it. */
  predicate Views(views: seq<Log>)
  {
    && (forall i :: 0 <= i < |views| ==> Channel(views[i]))
    && forall i, j :: 0 <= i <= j < |views| ==> Grows(views[i], views[j])
  }

  /** What the first k pages can hold. */
  function Capacity(k: nat, pageSize: nat): nat { if k == 0 then 0 else Capacity(k - 1, pageSize) + pageSize }

  lemma {:induction false} CapacityIs(k: nat, pageSize: nat)
    ensures Capacity(k, pageSize) == k * pageSize
  {
    if k > 0 {
      CapacityIs(k - 1, pageSize);
      assert k * pageSize == (k - 1) * pageSize + pageSize;
    }
  }

  /** The first page request that reaches the end of the channel as it then stands. */
  predicate CatchesUp(views: seq<Log>, pageSize: nat, k: nat)
  {
    k < |views| && |views[k]| <= Capacity(k + 1, pageSize) && Behindhand(views, pageSize, k)
  }

  lemma PageBehind(log: Log, read: Log, pageSize: nat)
    requires Channel(log) && read <= log && pageSize > 0
    ensures var page := Page(log, pageSize, Head(read));
      page == if |log| <= |read| + pageSize then log[|read|..] else log[|read|..|read| + pageSize]
  {
    BehindExact(log, Head(read), |read|);
  }

  /** One more page behind a prefix already read: it reaches the end ... */
  lemma LastPage(log: Log, read: Log, pageSize: nat)
    requires Channel(log) && read <= log && pageSize > 0 && |read| < |log| <= |read| + pageSize
    ensures var page := Page(log, pageSize, Head(read));
      page != [] && read + page == log && page[|page| - 1].channelSeq == Head(log)
  {
    var page := Page(log, pageSize, Head(read));
    PageBehind(log, read, pageSize);
    WholeTail(log, read, page);
  }

  lemma WholeTail(log: Log, read: Log, page: Log)
    requires read <= log && |read| < |log| && page == log[|read|..]
    ensures page != [] && read + page == log && page[|page| - 1].channelSeq == Head(log)
  {
    Behindmost(read, log);
  }

  /** ... or it is full and falls short. */
  lemma MorePages(log: Log, read: Log, pageSize: nat)
    requires Channel(log) && read <= log && pageSize > 0 && |read| + pageSize < |log|
    ensures var page := Page(log, pageSize, Head(read));
      |page| == pageSize && read + page <= log && page[|page| - 1].channelSeq < Head(log)
  {
    PageBehind(log, read, pageSize);
    Further(read, log, |read| + pageSize);
    assert log[|read| + pageSize - 1].channelSeq < log[|log| - 1].channelSeq;
  }

  /** One page request of the loop: done, or one full page further on. */
  lemma PageStep(views: seq<Log>, pageSize: nat, k: nat, read: Log)
    requires Views(views) && pageSize > 0 && k < |views|
    requires k > 0 ==> read <= views[k - 1] && |views[k - 1]| > |read| > 0
    requires k == 0 ==> read == []
    ensures var log, page := views[k], Page(views[k], pageSize, Head(read));
      && (page == [] ==> log == [] && k == 0)
      && (page != [] && Head(page) >= Head(log) ==> read + page == log && |log| <= |read| + pageSize)
      && (page != [] && Head(page) < Head(log) ==>
            |page| == pageSize && read + page <= log && |log| > |read| + pageSize)
  {
    if k > 0 { assert Grows(views[k - 1], views[k]); }
    PageOf(views[k], read, pageSize);
  }

  lemma PageOf(log: Log, read: Log, pageSize: nat)
    requires Channel(log) && pageSize > 0 && read <= log && (read != [] ==> |read| < |log|)
    ensures var page := Page(log, pageSize, Head(read));
      && (page == [] ==> log == [])
      && (page != [] && Head(page) >= Head(log) ==> read + page == log && |log| <= |read| + pageSize)
      && (page != [] && Head(page) < Head(log) ==>
            |page| == pageSize && read + page <= log && |log| > |read| + pageSize)
  {
    if log == [] { PageBehind(log, read, pageSize); }
    else if |log| <= |read| + pageSize { LastPage(log, read, pageSize); }
    else { MorePages(log, read, pageSize); }
  }

  /** No page request so far reached the end. */
  predicate Behindhand(views: seq<Log>, pageSize: nat, k: nat)
    requires k <= |views|
  {
    forall j :: 0 <= j < k ==> |views[j]| > Capacity(j + 1, pageSize)
  }

  /** Between two pages: k full pages have been read and none of them reached the end. */
  predicate Reading(views: seq<Log>, pageSize: nat, k: nat, read: Log)
    requires k <= |views|
  {
    && |read| == Capacity(k, pageSize) && Behindhand(views, pageSize, k)
    && (k > 0 ==> read <= views[k - 1] && |views[k - 1]| > |read| > 0)
  }

  datatype PageRead = Done(log: Log) | Partial | More(log: Log)

  method ReadPage(views: seq<Log>, pageSize: nat, k: nat, collected: Log) returns (step: PageRead)
    requires Views(views) && pageSize > 0 && k < |views| && Reading(views, pageSize, k, collected)
    ensures !step.Partial?
    ensures step.Done? ==> CatchesUp(views, pageSize, k) && step.log == views[k]
    ensures step.More? ==> Reading(views, pageSize, k + 1, step.log)
  {
    PageStep(views, pageSize, k, collected);
    var page, head := Page(views[k], pageSize, Head(collected)), Head(views[k]);
    if page == [] {
      return if head == 0 then Done(collected) else Partial;
    }
    if Head(page) >= head { return Done(collected + page); }
    NextPageDue(views, pageSize, k, collected, page);
    step := More(collected + page);
  }

  lemma NextPageDue(views: seq<Log>, pageSize: nat, k: nat, read: Log, page: Log)
    requires k < |views| && Reading(views, pageSize, k, read) && pageSize > 0
    requires |page| == pageSize && read + page <= views[k] && |views[k]| > |read| + pageSize
    ensures Reading(views, pageSize, k + 1, read + page)
  {
  }

  method ReadFullChannel(views: seq<Log>, pageSize: nat) returns (r: Result<Log, ReadError>, pages: nat)
    requires Views(views) && pageSize > 0
    ensures r.Ok? ==> pages > 0 && CatchesUp(views, pageSize, pages - 1) && r.value == views[pages - 1]
    ensures r.Err? ==> r.error == TooManyPages && Behindhand(views, pageSize, |views|)
  {
    var collected: Log := [];
    pages := 0;
    while pages < |views|
      invariant pages <= |views|
      invariant Reading(views, pageSize, pages, collected)
    {
      var step := ReadPage(views, pageSize, pages, collected);
      pages := pages + 1;
      match step {
        case Done(log) => return Ok(log), pages;
        case Partial => return Err(PartialPage), pages;
        case More(log) => collected := log;
      }
    }
    r := Err(TooManyPages);
  }

  /** A complete read: the channel as some page request caught up with it. */
  ghost predicate ReadWhole(views: seq<Log>, pageSize: nat, log: Log)
  {
    exists k :: 0 <= k < |views| && CatchesUp(views, pageSize, k) && log == views[k]
  }

  method ReadAll(views: seq<Log>, pageSize: nat) returns (r: Result<Log, ReadError>)
    requires Views(views) && pageSize > 0
    ensures r.Ok? ==> ReadWhole(views, pageSize, r.value)
    ensures r.Err? ==> r.error == TooManyPages
  {
    var read, pages := ReadFullChannel(views, pageSize);
    r := read;
  }

  ghost function LastPageOf(views: seq<Log>, pageSize: nat, log: Log): (k: nat)
    requires ReadWhole(views, pageSize, log)
    ensures k < |views| && CatchesUp(views, pageSize, k) && log == views[k]
  {
    var k :| 0 <= k < |views| && CatchesUp(views, pageSize, k) && log == views[k];
    k
  }

  /** What a complete read is: the channel as its last page request found it, which holds whatever
      any earlier request saw; and no length of channel is refused but for want of pages. */
  lemma CompleteReadIsUnique(views: seq<Log>, pageSize: nat, k: nat, l: nat)
    requires Views(views) && CatchesUp(views, pageSize, k) && CatchesUp(views, pageSize, l)
    ensures k == l && forall j :: 0 <= j <= k ==> Grows(views[j], views[k])
  {
  }

  /** A channel that stands still is read in one page per started page size, at least one. */
  lemma QuietChannelPages(log: Log, pageSize: nat, pages: nat, maxPages: nat)
    requires pageSize > 0 && pages > 0
    ensures CatchesUp(seq(maxPages, _ => log), pageSize, pages - 1)
            <==> pages <= maxPages && pages == if |log| == 0 then 1 else (|log| + pageSize - 1) / pageSize
  {
    var views := seq(maxPages, _ => log);
    CeilingExact(|log|, pageSize, pages);
    CapacityIs(pages, pageSize);
    CapacityIs(pages - 1, pageSize);
    if CatchesUp(views, pageSize, pages - 1) {
      assert pages > 1 ==> |views[pages - 2]| > Capacity(pages - 1, pageSize);
    }
    if pages <= maxPages && |log| <= pages * pageSize && (pages > 1 ==> |log| > (pages - 1) * pageSize) {
      forall j | 0 <= j < pages - 1 ensures |views[j]| > Capacity(j + 1, pageSize) {
        CapacityIs(j + 1, pageSize);
        MulMonotone(j + 1, pages - 1, pageSize);
      }
    }
  }

  lemma MulMonotone(a: nat, b: nat, p: nat)
    requires a <= b
    ensures a * p <= b * p
  {
  }

  lemma CeilingExact(n: nat, p: nat, pages: nat)
    requires p > 0 && pages > 0
    ensures (n <= pages * p && (pages > 1 ==> n > (pages - 1) * p))
            <==> pages == if n == 0 then 1 else (n + p - 1) / p
  {
    if n > 0 {
      var q := (n + p - 1) / p;
      assert q * p <= n + p - 1 < q * p + p;
      assert (q - 1) * p == q * p - p;
      if pages < q { MulMonotone(pages, q - 1, p); }
      if pages > q { MulMonotone(q, pages - 1, p); }
    } else if pages > 1 {
      MulMonotone(1, pages - 1, p);
    }
  }

  // ----- the gate lookup (src/fleet_graph/bus/board.py) ----------------------

  const WINDOW: nat := 1000

  predicate DecisionKind(kind: string) { kind == DECISION_KIND || kind == DECISION_KIND_V2 }

  predicate Answers(m: Message, question: string, after: nat)
  {
    DecisionKind(m.kind) && question in m.refs && m.channelSeq > after
  }

  /** Decisions of both versions answer, and nothing else does. */
  lemma AnswersAre(m: Message, question: string, after: nat)
    ensures Answers(m, question, after)
      <==> (m.kind == "work.decision.v1" || m.kind == "work.decision.v2") && question in m.refs && m.channelSeq > after
  {
  }

  /** The newest decision that references the question, past a sequence number. */
  function NewestAnswer(log: Log, question: string, after: nat): Option<Message>
  {
    if log == [] then None
    else if Answers(log[|log| - 1], question, after) then Some(log[|log| - 1])
    else NewestAnswer(log[..|log| - 1], question, after)
  }

  function RefIds(log: Log, target: string): set<string> { set m | m in log && target in m.refs :: m.id }

  function WindowStart(head: nat): nat { if head > WINDOW then head - WINDOW else 0 }

  /** max(decisions, key=channel_seq) over the messages of a page that were already candidates. */
  method NewestCandidate(page: Log, candidates: set<string>) returns (r: Option<Message>)
    requires Channel(page)
    ensures r.Some? ==> r.value in page && r.value.id in candidates && DecisionKind(r.value.kind)
    ensures forall m :: m in page && m.id in candidates && DecisionKind(m.kind) ==>
                        r.Some? && m.channelSeq <= r.value.channelSeq
  {
    r := None;
    for i := 0 to |page|
      invariant r.Some? ==> r.value in page[..i] && r.value.id in candidates && DecisionKind(r.value.kind)
      invariant forall m :: m in page[..i] && m.id in candidates && DecisionKind(m.kind) ==>
                            r.Some? && m.channelSeq <= r.value.channelSeq
    {
      assert page[..i + 1] == page[..i] + [page[i]];
      if page[i].id in candidates && DecisionKind(page[i].kind) {
        if r.None? || page[i].channelSeq > r.value.channelSeq { r := Some(page[i]); }
      }
    }
    assert page[..|page|] == page;
  }

  lemma {:induction false} NewestAnswerIs(log: Log, question: string, after: nat)
    requires Channel(log)
    ensures var r := NewestAnswer(log, question, after);
      && (r.Some? ==> r.value in log && Answers(r.value, question, after))
      && (forall m :: m in log && Answers(m, question, after) ==> r.Some? && m.channelSeq <= r.value.channelSeq)
  {
    if log != [] {
      var front, last := log[..|log| - 1], log[|log| - 1];
      assert log == front + [last];
      ChannelPrefix(front, log);
      NewestAnswerIs(front, question, after);
    }
  }

  /** Every answer that the reference read could see and that is newer than the window's start is
      in the tail window, however the channel grew in between. */
  lemma AnswersInWindow(atRefs: Log, atHead: Log, atWindow: Log, m: Message)
    requires Channel(atWindow) && Grows(atRefs, atHead) && Grows(atHead, atWindow)
    requires m in atRefs && m.channelSeq > WindowStart(Head(atHead))
    ensures m in Page(atWindow, WINDOW, WindowStart(Head(atHead)))
  {
    var start := WindowStart(Head(atHead));
    ChannelPrefix(atHead, atWindow);
    var i :| 0 <= i < |atRefs| && atRefs[i] == m;
    assert atWindow[i] == m && atHead[i] == m;
    NotBeyondHead(atHead, i);
    InTail(atWindow, start, i);
  }

  lemma InTail(log: Log, start: nat, i: nat)
    requires Channel(log) && i < |log| && start < log[i].channelSeq <= start + WINDOW
    ensures log[i] in Page(log, WINDOW, start)
  {
    var n := Behind(log, start);
    BehindSplits(log, start);
    NotBehind(log, start, i);
    SeqSpread(log, n, i);
    assert Page(log, WINDOW, start)[i - n] == log[i];
  }

  lemma NotBeyondHead(log: Log, i: nat)
    requires Channel(log) && i < |log|
    ensures log[i].channelSeq <= Head(log)
  {
  }

  lemma NotBehind(log: Log, after: nat, i: nat)
    requires Channel(log) && i < |log| && log[i].channelSeq > after
    ensures Behind(log, after) <= i
  {
    BehindSplits(log, after);
    var n := Behind(log, after);
    assert n > 0 ==> log[n - 1].channelSeq <= after;
  }

  lemma PageAt(log: Log, limit: nat, after: nat, i: nat)
    requires Channel(log) && i < |Page(log, limit, after)|
    ensures var n := Behind(log, after);
      n + i < |log| && Page(log, limit, after)[i] == log[n + i] && log[n + i].channelSeq > after
  {
    BehindSplits(log, after);
    SeqSpread(log, Behind(log, after), Behind(log, after) + i);
  }

  lemma SubChannel(log: Log, a: nat, b: nat)
    requires Channel(log) && a <= b <= |log|
    ensures Channel(log[a..b])
  {
  }

  lemma PageIsChannel(log: Log, limit: nat, after: nat)
    requires Channel(log)
    ensures Channel(Page(log, limit, after))
    ensures forall m :: m in Page(log, limit, after) ==> m in log && m.channelSeq > after
  {
    var page := Page(log, limit, after);
    SubChannel(log, Behind(log, after), Behind(log, after) + |page|);
    forall m | m in page ensures m in log && m.channelSeq > after { InPage(log, limit, after, m); }
  }

  lemma InPage(log: Log, limit: nat, after: nat, m: Message)
    requires Channel(log) && m in Page(log, limit, after)
    ensures m in log && m.channelSeq > after
  {
    var i :| 0 <= i < |Page(log, limit, after)| && Page(log, limit, after)[i] == m;
    PageAt(log, limit, after, i);
  }

  lemma SameMessage(log: Log, a: Message, b: Message)
    requires Channel(log) && a in log && b in log && (a.id == b.id || a.channelSeq == b.channelSeq)
    ensures a == b
  {
  }

  /** The verdict answering a question, over three requests between which others append: the
      reference read, the head read and the window read. Ids of other channels are in elsewhere. */
  method DecisionFor(question: string, atRefs: Log, elsewhere: set<string>, atHead: Log, atWindow: Log)
    returns (r: Option<Message>)
    requires Channel(atWindow) && Grows(atRefs, atHead) && Grows(atHead, atWindow)
    requires forall m :: m in atWindow ==> m.id !in elsewhere
    ensures r == NewestAnswer(atRefs, question, WindowStart(Head(atHead)))
  {
    var candidates := RefIds(atRefs, question) + elsewhere;
    var head := Head(atHead);
    ChannelPrefix(atHead, atWindow);
    ChannelPrefix(atRefs, atHead);
    if candidates == {} {
      NoRefsNoAnswer(atRefs, question, WindowStart(head));
      return None;
    }
    var page := Page(atWindow, WINDOW, WindowStart(head));
    PageIsChannel(atWindow, WINDOW, WindowStart(head));
    r := NewestCandidate(page, candidates);
    LookupIsNewest(question, atRefs, elsewhere, atHead, atWindow, r);
  }

  /** The oldest decision is missed once the head is 1000 further on. */
  lemma OldDecisionIsMissed(decision: Message, head: Message, question: string)
    requires decision.channelSeq > 0 && decision.id != head.id && Answers(decision, question, 0) && !Answers(head, question, 0)
    requires head.channelSeq > decision.channelSeq
    ensures var log := [decision, head];
      && Channel(log) && NewestAnswer(log, question, 0) == Some(decision)
      && (NewestAnswer(log, question, WindowStart(Head(log))) == None <==> head.channelSeq - decision.channelSeq >= 1000)
  {
    assert Head([decision, head]) == head.channelSeq;
    NewestOfTwo(decision, head, question, 0);
    NewestOfTwo(decision, head, question, WindowStart(head.channelSeq));
  }

  lemma NewestOfTwo(decision: Message, head: Message, question: string, after: nat)
    requires !Answers(head, question, after)
    ensures NewestAnswer([decision, head], question, after) == if Answers(decision, question, after) then Some(decision) else None
  {
    var log, none: Log := [decision, head], [];
    assert log[..1] == [decision] && [decision][..0] == none;
    assert NewestAnswer(none, question, after) == None;
    assert NewestAnswer([decision], question, after) == if Answers(decision, question, after) then Some(decision) else None;
  }

  lemma NoRefsNoAnswer(log: Log, question: string, after: nat)
    requires Channel(log) && RefIds(log, question) == {}
    ensures NewestAnswer(log, question, after) == None
  {
    NewestAnswerIs(log, question, after);
    var r := NewestAnswer(log, question, after);
    assert forall m :: m in log && question in m.refs ==> m.id in RefIds(log, question);
  }

  lemma LookupIsNewest(question: string, atRefs: Log, elsewhere: set<string>, atHead: Log, atWindow: Log, r: Option<Message>)
    requires Channel(atWindow) && Grows(atRefs, atHead) && Grows(atHead, atWindow)
    requires forall m :: m in atWindow ==> m.id !in elsewhere
    requires var page := Page(atWindow, WINDOW, WindowStart(Head(atHead)));
      var candidates := RefIds(atRefs, question) + elsewhere;
      && (r.Some? ==> r.value in page && r.value.id in candidates && DecisionKind(r.value.kind))
      && forall m :: m in page && m.id in candidates && DecisionKind(m.kind) ==>
                     r.Some? && m.channelSeq <= r.value.channelSeq
    ensures r == NewestAnswer(atRefs, question, WindowStart(Head(atHead)))
  {
    var start := WindowStart(Head(atHead));
    var want := NewestAnswer(atRefs, question, start);
    ChannelPrefix(atHead, atWindow);
    ChannelPrefix(atRefs, atHead);
    NewestAnswerIs(atRefs, question, start);
    PageIsChannel(atWindow, WINDOW, start);
    if r.Some? {
      var m :| m in atRefs && question in m.refs && m.id == r.value.id;
      InLater(atRefs, atHead, atWindow, m);
      SameMessage(atWindow, m, r.value);
    }
    if want.Some? {
      AnswersInWindow(atRefs, atHead, atWindow, want.value);
      InLater(atRefs, atHead, atWindow, want.value);
      assert want.value.id in RefIds(atRefs, question);
      assert r.Some?;
      SameMessage(atWindow, want.value, r.value);
    }
  }

  lemma InLater(a: Log, b: Log, c: Log, m: Message)
    requires Grows(a, b) && Grows(b, c) && m in a
    ensures m in c
  {
    var i :| 0 <= i < |a| && a[i] == m;
    assert c[i] == m;
  }
}
