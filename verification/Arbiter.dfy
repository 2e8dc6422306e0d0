/** The read-only arbiter (src/fleet_graph/arbiter/a2.py, publisher.py): one tick, and any
    sequence of ticks among other traffic on the notes channel. */
module Arbiter {
  import opened Text
  import opened BusLog

  const NOTE_MARKER := "[A2 suggestion \U{2014} not a decision]"

  /** question, blocked or consultation; the kind plays no part in suppression. */
  datatype SubjectKind = Question | Blocked | Consultation

  datatype Subject = Subject(kind: SubjectKind, id: string, card: string)

  datatype Recommendation = Recommendation(
    subjectId: string, text: string, evidence: seq<string>, consequence: string, target: string)

  /** What the reasoning role gives back once coerced: a recommendation, or a refusal. */
  datatype Reply = Recommended(rec: Recommendation) | Refused

  /** A publish succeeds, fails before the bus stored the note, or fails after it did. */
  datatype Outcome = Delivered | Failed | Lost

  /** A message before the bus gave it its id and sequence number. */
  datatype Draft = Draft(kind: string, entity: string, payload: Payload, refs: set<string>)

  /** Everything outside the arbiter while it handles one subject. */
  datatype Env = Env(traffic: seq<Draft>, reply: Reply, outcome: Outcome)

  datatype Emitted = Emitted(subject: string, noteType: string, refs: seq<string>, dryRun: bool)

  datatype ArbiterRun = ArbiterRun(emitted: seq<Emitted>, suppressed: seq<string>, refused: seq<string>)

  // ----- the notes channel --------------------------------------------------

  function Post(log: Log, d: Draft): Log
  {
    var n := Head(log) + 1;
    log + [Message("note:" + IntText(n), n, d.kind, d.entity, d.payload, d.refs)]
  }

  function PostAll(log: Log, drafts: seq<Draft>): Log
  {
    if drafts == [] then log else Post(PostAll(log, drafts[..|drafts| - 1]), drafts[|drafts| - 1])
  }

  /** A channel whose ids come from its sequence numbers, so that they are unique. */
  predicate NotesChannel(log: Log)
  {
    Channel(log) && forall i :: 0 <= i < |log| ==> log[i].id == "note:" + IntText(log[i].channelSeq)
  }

  lemma PostKeepsChannel(log: Log, d: Draft)
    requires NotesChannel(log)
    ensures NotesChannel(Post(log, d)) && Grows(log, Post(log, d))
  {
    var m := Post(log, d)[|log|];
    forall i | 0 <= i < |log| ensures log[i].channelSeq < m.channelSeq && log[i].id != m.id {
      SeqSpread(log, i, |log| - 1);
      if log[i].id == m.id {
        PrefixCancels("note:", IntText(log[i].channelSeq), IntText(m.channelSeq));
        IntTextInjective(log[i].channelSeq, m.channelSeq);
      }
    }
  }

  lemma {:induction false} PostAllKeepsChannel(log: Log, drafts: seq<Draft>)
    requires NotesChannel(log)
    ensures NotesChannel(PostAll(log, drafts)) && Grows(log, PostAll(log, drafts))
  {
    if drafts != [] {
      PostAllKeepsChannel(log, drafts[..|drafts| - 1]);
      PostKeepsChannel(PostAll(log, drafts[..|drafts| - 1]), drafts[|drafts| - 1]);
    }
  }

  // ----- notes --------------------------------------------------------------

  predicate A2Note(m: Message) { m.kind == NOTE_KIND && StartsWith(m.payload.note, NOTE_MARKER) }

  const DISPATCHING := "dispatching_line"
  const ESCALATION := "supervisor_escalation"
  const EVIDENCE := "needs_evidence"

  function Guidance(rec: Recommendation): seq<string>
  {
    if rec.target == EVIDENCE then ["guidance: needs evidence -- go back for evidence; missing: " + rec.text]
    else if rec.target == DISPATCHING then
      ["guidance: route to the dispatching line -- the unit's dispatched_by "
       + "self-judges (D5: the dispatching line owns its own gate)"]
    else if rec.target == ESCALATION then
      ["guidance: supervisor escalation -- the supervisor must answer this "
       + "escalation (direction / production-action ruling)"]
    else []
  }

  function CommaJoin(parts: seq<string>): string
  {
    if parts == [] then "" else if |parts| == 1 then parts[0] else parts[0] + ", " + CommaJoin(parts[1..])
  }

  function NoteBody(rec: Recommendation): (r: seq<string>)
    ensures r != []
  {
    ["subject_id: " + rec.subjectId,
     "escalation_target: " + (if rec.target == "" then "none" else rec.target),
     "recommendation: " + rec.text]
    + Guidance(rec)
    + (if rec.consequence == "" then [] else ["consequence: " + rec.consequence])
    + (if rec.evidence == [] then [] else ["evidence_refs: " + CommaJoin(rec.evidence)])
  }

  function RenderNote(rec: Recommendation): string { Join([NOTE_MARKER] + NoteBody(rec), '\n') }

  /** Whatever the model wrote, the note is marked a suggestion. */
  lemma NoteIsMarked(rec: Recommendation)
    ensures StartsWith(RenderNote(rec), NOTE_MARKER)
  {
    JoinStarts(NOTE_MARKER, NoteBody(rec), '\n');
  }

  /** A note is its marker and its lines, one under the other. */
  lemma NoteIsLines(rec: Recommendation)
    ensures RenderNote(rec) + "\n" == Unlines([NOTE_MARKER] + NoteBody(rec))
  {
    UnlinesIsJoin([NOTE_MARKER] + NoteBody(rec));
  }

  /** What a note says, line by line: whom it is about, where it points and what it recommends, ... */
  lemma NoteHeadSays(rec: Recommendation)
    ensures NoteBody(rec)[..3] == [
      "subject_id: " + rec.subjectId,
      if rec.target == "" then "escalation_target: none" else "escalation_target: " + rec.target,
      "recommendation: " + rec.text]
  {
    FirstPart(HeadOf(rec), Guidance(rec), if rec.consequence == "" then [] else ["consequence: " + rec.consequence],
              if rec.evidence == [] then [] else ["evidence_refs: " + CommaJoin(rec.evidence)]);
    assert "escalation_target: " + "none" == "escalation_target: none";
  }

  function HeadOf(rec: Recommendation): (r: seq<string>)
    ensures |r| == 3
  {
    ["subject_id: " + rec.subjectId, "escalation_target: " + (if rec.target == "" then "none" else rec.target),
     "recommendation: " + rec.text]
  }

  lemma FirstPart<T>(a: seq<T>, b: seq<T>, c: seq<T>, d: seq<T>)
    ensures (a + b + c + d)[..|a|] == a
  {
  }

  lemma LastParts<T>(a: seq<T>, b: seq<T>, c: seq<T>, d: seq<T>)
    ensures var all := a + b + c + d; all[|all| - |c + d|..] == c + d
  {
  }

  /** ... for missing evidence what is missing, ... */
  lemma NoteAsksForEvidence(rec: Recommendation)
    ensures rec.target == "needs_evidence" ==>
      NoteBody(rec)[3..][..1] == ["guidance: needs evidence -- go back for evidence; missing: " + rec.text]
  {
  }

  /** ... and at its end the consequence and the evidence, where there are any. */
  lemma NoteTailSays(rec: Recommendation)
    ensures var tail := (if rec.consequence == "" then [] else ["consequence: " + rec.consequence])
                        + if rec.evidence == [] then [] else ["evidence_refs: " + CommaJoin(rec.evidence)];
      |tail| <= |NoteBody(rec)| && NoteBody(rec)[|NoteBody(rec)| - |tail|..] == tail
  {
    LastParts(HeadOf(rec), Guidance(rec), if rec.consequence == "" then [] else ["consequence: " + rec.consequence],
              if rec.evidence == [] then [] else ["evidence_refs: " + CommaJoin(rec.evidence)]);
  }

  /** The evidence is listed in order, with a comma and a space between two. */
  lemma {:induction false} EvidenceIsListed(front: seq<string>, last: string)
    ensures CommaJoin(front + [last]) == if front == [] then last else CommaJoin(front) + ", " + last
  {
    if front == [] {
      assert front + [last] == [last];
    } else {
      EvidenceIsListed(front[1..], last);
      assert (front + [last])[1..] == front[1..] + [last];
      if |front| > 1 { EvidenceFurther(front[0], CommaJoin(front[1..]), last); }
    }
  }

  lemma EvidenceFurther(first: string, rest: string, last: string)
    ensures first + ", " + (rest + ", " + last) == first + ", " + rest + ", " + last
  {
    Regrouped(first + ", ", rest + ", ", last);
    Regrouped(first + ", ", rest, ", ");
  }

  lemma JoinStarts(first: string, rest: seq<string>, c: char)
    requires rest != []
    ensures StartsWith(Join([first] + rest, c), first)
  {
    assert ([first] + rest)[1..] == rest;
    assert Join([first] + rest, c) == first + ([c] + Join(rest, c));
  }

  /** The targets a note may carry besides its card, in order. */
  function RefsFrom(candidates: seq<string>, subject: Subject, known: set<string>): seq<string>
  {
    if candidates == [] then []
    else
      var earlier, ref := RefsFrom(candidates[..|candidates| - 1], subject, known), candidates[|candidates| - 1];
      if ref == "" || ref == subject.card || ref in earlier then earlier
      else if ref != subject.id && ref !in known then earlier
      else earlier + [ref]
  }

  function SubjectRefs(subject: Subject, rec: Recommendation, known: set<string>): seq<string>
  {
    RefsFrom([subject.id] + rec.evidence, subject, known)
  }

  method CollectRefs(subject: Subject, rec: Recommendation, known: set<string>) returns (ordered: seq<string>)
    ensures ordered == SubjectRefs(subject, rec, known) && Once(ordered)
  {
    var refs := [subject.id] + rec.evidence;
    var seen := {subject.card};
    ordered := [];
    for i := 0 to |refs|
      invariant ordered == RefsFrom(refs[..i], subject, known)
      invariant seen == {subject.card} + set r | r in ordered
    {
      assert refs[..i + 1][..i] == refs[..i];
      var ref := refs[i];
      if ref == "" || ref in seen { continue; }
      if ref != subject.id && ref !in known { continue; }
      seen := seen + {ref};
      ordered := ordered + [ref];
    }
    assert refs[..|refs|] == refs;
    RefsFromDistinct(refs, subject, known);
  }

  /** The published targets: the subject's card, then whatever the caller lists besides. */
  function TargetsOf(card: string, subjectRefs: seq<string>): seq<string>
  {
    if subjectRefs == [] then [card]
    else
      var last := subjectRefs[|subjectRefs| - 1];
      TargetsOf(card, subjectRefs[..|subjectRefs| - 1]) + if last != "" && last != card then [last] else []
  }

  function NoteDraft(subject: Subject, rec: Recommendation, known: set<string>): Draft
  {
    Draft(NOTE_KIND, "", Payload(subject.card, RenderNote(rec), NoteType(rec), "", ""),
          set t | t in TargetsOf(subject.card, SubjectRefs(subject, rec, known)))
  }

  function NoteType(rec: Recommendation): string { if rec.target != "" then "finding" else "progress" }

  lemma {:induction false} RefsFromFacts(candidates: seq<string>, subject: Subject, known: set<string>)
    ensures forall x :: x in RefsFrom(candidates, subject, known) <==> x in candidates && GoodRef(x, subject, known)
  {
    if candidates != [] {
      var front, last := candidates[..|candidates| - 1], candidates[|candidates| - 1];
      RefsFromFacts(front, subject, known);
      RefsFromStep(RefsFrom(front, subject, known), front, last, subject, known);
      assert candidates == front + [last];
    }
  }

  predicate GoodRef(x: string, subject: Subject, known: set<string>)
  {
    x != "" && x != subject.card && (x == subject.id || x in known)
  }

  lemma RefsFromStep(earlier: seq<string>, front: seq<string>, last: string, subject: Subject, known: set<string>)
    requires forall x :: x in earlier <==> x in front && GoodRef(x, subject, known)
    ensures var r := if GoodRef(last, subject, known) && last !in earlier then earlier + [last] else earlier;
      forall x :: x in r <==> x in front + [last] && GoodRef(x, subject, known)
  {
    assert forall x :: x in front + [last] <==> x in front || x == last;
    assert forall x :: x in earlier + [last] <==> x in earlier || x == last;
  }

  lemma {:induction false} RefsFromDistinct(candidates: seq<string>, subject: Subject, known: set<string>)
    ensures Once(RefsFrom(candidates, subject, known))
  {
    if candidates != [] {
      RefsFromDistinct(candidates[..|candidates| - 1], subject, known);
      OnceSnoc(RefsFrom(candidates[..|candidates| - 1], subject, known), candidates[|candidates| - 1]);
    }
  }

  predicate Once(refs: seq<string>) { forall i, j :: 0 <= i < j < |refs| ==> refs[i] != refs[j] }

  lemma OnceSnoc(refs: seq<string>, ref: string)
    requires Once(refs)
    ensures Once(refs + [ref]) <==> ref !in refs
  {
    if ref in refs {
      var i :| 0 <= i < |refs| && refs[i] == ref;
      assert (refs + [ref])[i] == (refs + [ref])[|refs|];
    }
  }

  lemma {:induction false} TargetsFacts(card: string, refs: seq<string>)
    ensures forall x :: x in TargetsOf(card, refs) <==> x == card || (x in refs && x != "")
  {
    if refs != [] {
      TargetsFacts(card, refs[..|refs| - 1]);
      assert refs == refs[..|refs| - 1] + [refs[|refs| - 1]];
    }
  }

  /** A note points at its card, at its subject, and beyond that only at entities seen on the
      board; the subject is missing only if it has no id while its card has one. */
  lemma NoteTargets(subject: Subject, rec: Recommendation, known: set<string>)
    ensures var refs := NoteDraft(subject, rec, known).refs;
      && subject.card in refs
      && (subject.id in refs <==> subject.id != "" || subject.card == "")
      && (forall x :: x in refs ==> x == subject.card || x == subject.id || (x in known && x in rec.evidence))
      && (forall x :: x in rec.evidence && x in known && x != "" ==> x in refs)
  {
    var candidates := [subject.id] + rec.evidence;
    RefsFromFacts(candidates, subject, known);
    TargetsFacts(subject.card, SubjectRefs(subject, rec, known));
    assert candidates[0] == subject.id;
    assert forall x :: x in candidates <==> x == subject.id || x in rec.evidence;
  }

  // ----- replay suppression -------------------------------------------------

  /** An A2 note of this snapshot references the subject, going by the index as it is now. */
  predicate Referenced(now: Log, subject: string, snapshot: Log)
  {
    exists m :: m in snapshot && m.id in RefIds(now, subject) && A2Note(m)
  }

  method AlreadyReferenced(now: Log, subject: string, snapshot: Log) returns (found: bool)
    requires NotesChannel(now) && Grows(snapshot, now)
    ensures found <==> Referenced(now, subject, snapshot)
  {
    var rest := RefIds(now, subject);
    ChannelPrefix(snapshot, now);
    var byId: map<string, Message> := map[];
    for i := 0 to |snapshot|
      invariant forall id :: id in byId ==> byId[id] in snapshot && byId[id].id == id
      invariant forall k :: 0 <= k < i ==> snapshot[k].id in byId
    {
      byId := byId[snapshot[i].id := snapshot[i]];
    }
    found := false;
    while rest != {}
      invariant rest <= RefIds(now, subject)
      invariant forall id :: id in RefIds(now, subject) - rest && id in byId ==> !A2Note(byId[id])
      decreases rest
    {
      var id :| id in rest;
      rest := rest - {id};
      if id in byId && A2Note(byId[id]) { return true; }
    }
    forall m | m in snapshot && m.id in RefIds(now, subject) ensures !A2Note(m) {
      SameMessage(snapshot, m, byId[m.id]);
    }
  }

  // ----- one tick -----------------------------------------------------------

  /** The tick while it goes through its subjects. */
  datatype Tick = Tick(log: Log, seen: set<string>, run: ArbiterRun, noted: seq<string>)

  function Suppress(t: Tick, log: Log, subject: Subject): Tick
  {
    t.(log := log, run := t.run.(suppressed := t.run.suppressed + [subject.id]))
  }

  function Refuse(t: Tick, log: Log, subject: Subject): Tick
  {
    t.(log := log, seen := t.seen + {subject.id}, run := t.run.(refused := t.run.refused + [subject.id]))
  }

  /** One subject: the traffic before it, the suppression check, the recommendation, the note.
      noted lists the subjects whose note reached the channel, acknowledged or not. */
  function Handle(t: Tick, snapshot: Log, known: set<string>, publish: bool, subject: Subject, env: Env): Tick
  {
    var log := PostAll(t.log, env.traffic);
    if subject.id in t.seen || Referenced(log, subject.id, snapshot) then Suppress(t, log, subject)
    else if env.reply.Refused? then Refuse(t, log, subject)
    else
      var rec := env.reply.rec;
      var stored := publish && !env.outcome.Failed?;
      var after := if stored then Post(log, NoteDraft(subject, rec, known)) else log;
      var noted := if stored then t.noted + [subject.id] else t.noted;
      if publish && !env.outcome.Delivered? then Refuse(t.(noted := noted), after, subject)
      else Tick(after, t.seen + {subject.id},
                t.run.(emitted := t.run.emitted
                                  + [Emitted(subject.id, NoteType(rec), SubjectRefs(subject, rec, known), !publish)]),
                noted)
  }

  function RunOver(start: Tick, snapshot: Log, known: set<string>, publish: bool, work: seq<(Subject, Env)>): Tick
  {
    if work == [] then start
    else
      var last := work[|work| - 1];
      Handle(RunOver(start, snapshot, known, publish, work[..|work| - 1]), snapshot, known, publish, last.0, last.1)
  }

  function StartTick(log: Log): Tick { Tick(log, {}, ArbiterRun([], [], []), []) }

  class NotesBoard {
    var log: Log

    constructor ()
      ensures log == []
    {
      log := [];
    }

    /** What others append. */
    method Receive(drafts: seq<Draft>)
      modifies this
      ensures log == PostAll(old(log), drafts)
    {
      for i := 0 to |drafts|
        invariant log == PostAll(old(log), drafts[..i])
      {
        assert drafts[..i + 1][..i] == drafts[..i];
        log := Post(log, drafts[i]);
      }
      assert drafts[..|drafts|] == drafts;
    }

    /** The only write the arbiter reaches. The two note types are all it accepts. */
    method Publish(card: string, noteType: string, text: string, subjectRefs: seq<string>, outcome: Outcome)
      returns (ok: bool)
      modifies this
      ensures noteType !in {"finding", "progress"} ==> !ok && log == old(log)
      ensures noteType in {"finding", "progress"} ==>
        && ok == outcome.Delivered?
        && log == if outcome.Failed? then old(log)
                  else Post(old(log), Draft(NOTE_KIND, "", Payload(card, text, noteType, "", ""),
                                            set t | t in TargetsOf(card, subjectRefs)))
    {
      if noteType != "finding" && noteType != "progress" { return false; }
      var refs := [card];
      for i := 0 to |subjectRefs|
        invariant refs == TargetsOf(card, subjectRefs[..i]) && log == old(log)
      {
        assert subjectRefs[..i + 1][..i] == subjectRefs[..i];
        if subjectRefs[i] != "" && subjectRefs[i] != card { refs := refs + [subjectRefs[i]]; }
      }
      assert subjectRefs[..|subjectRefs|] == subjectRefs;
      if !outcome.Failed? {
        log := Post(log, Draft(NOTE_KIND, "", Payload(card, text, noteType, "", ""), set t | t in refs));
      }
      ok := outcome.Delivered?;
    }

    /** One subject of the loop. */
    method HandleSubject(run: ArbiterRun, seen: set<string>, ghost noted: seq<string>, snapshot: Log, known: set<string>,
                         publish: bool, subject: Subject, env: Env)
      returns (run': ArbiterRun, seen': set<string>, ghost noted': seq<string>)
      requires NotesChannel(log) && Grows(snapshot, log)
      modifies this
      ensures Tick(log, seen', run', noted') == Handle(Tick(old(log), seen, run, noted), snapshot, known, publish, subject, env)
    {
      run', seen', noted' := run, seen, noted;
      PostAllKeepsChannel(log, env.traffic);
      Receive(env.traffic);
      var referenced := AlreadyReferenced(log, subject.id, snapshot);
      if subject.id in seen || referenced {
        run' := run.(suppressed := run.suppressed + [subject.id]);
        return;
      }
      seen' := seen + {subject.id};
      if env.reply.Refused? {
        run' := run.(refused := run.refused + [subject.id]);
        return;
      }
      var rec := env.reply.rec;
      var refs := CollectRefs(subject, rec, known);
      if publish {
        var ok := Publish(subject.card, NoteType(rec), RenderNote(rec), refs, env.outcome);
        if !env.outcome.Failed? { noted' := noted + [subject.id]; }
        if !ok {
          run' := run.(refused := run.refused + [subject.id]);
          return;
        }
      }
      run' := run.(emitted := run.emitted + [Emitted(subject.id, NoteType(rec), refs, !publish)]);
    }

    /** The subject loop. */
    method HandleAll(work: seq<(Subject, Env)>, known: set<string>, publish: bool)
      returns (run: ArbiterRun, ghost noted: seq<string>)
      requires NotesChannel(log)
      modifies this
      ensures var end := RunOver(StartTick(old(log)), old(log), known, publish, work);
        log == end.log && run == end.run && noted == end.noted
      ensures NotesChannel(log) && Grows(old(log), log)
    {
      var snapshot := log;
      var seen: set<string> := {};
      run, noted := ArbiterRun([], [], []), [];
      for i := 0 to |work|
        invariant NotesChannel(log) && Grows(snapshot, log)
        invariant Tick(log, seen, run, noted) == RunOver(StartTick(old(log)), snapshot, known, publish, work[..i])
      {
        assert work[..i + 1][..i] == work[..i];
        HandleKeepsChannel(Tick(log, seen, run, noted), snapshot, known, publish, work[i].0, work[i].1);
        run, seen, noted := HandleSubject(run, seen, noted, snapshot, known, publish, work[i].0, work[i].1);
      }
      assert work[..|work|] == work;
    }

    /** The notes channel read whole while others append. */
    method ReadNotes(traffic: seq<seq<Draft>>, pageSize: nat) returns (r: Result<Log, ReadError>)
      requires NotesChannel(log) && pageSize > 0
      modifies this
      ensures NotesChannel(log) && Grows(old(log), log)
      ensures r.Ok? ==> log == r.value && ReadWhole(ViewsOf(old(log), traffic), pageSize, r.value)
      ensures r.Err? ==> r.error == TooManyPages && log == if traffic == [] then old(log) else ViewsOf(old(log), traffic)[|traffic| - 1]
    {
      var views := ViewsOf(log, traffic);
      ViewsGrow(log, traffic);
      r := ReadAll(views, pageSize);
      if r.Ok? {
        log := r.value;
      } else if traffic != [] {
        log := views[|traffic| - 1];
      }
    }

    /** One tick over subjects already collected, each with what happens while it is handled: both
        channels are read whole, or the tick is refused and writes nothing. */
    method RunArbiter(work: seq<(Subject, Env)>, publish: bool, traffic: seq<seq<Draft>>, cardViews: seq<Log>, pageSize: nat)
      returns (r: Result<ArbiterRun, ReadError>, ghost start: Log, ghost cards: Log, ghost noted: seq<string>)
      requires NotesChannel(log) && Views(cardViews) && pageSize > 0
      modifies this
      ensures NotesChannel(log) && Grows(old(log), log)
      ensures r.Err? ==> r.error == TooManyPages && noted == [] && log == start
      ensures r.Err? ==> start == old(log) || start in ViewsOf(old(log), traffic)
      ensures r.Ok? ==>
        && ReadWhole(ViewsOf(old(log), traffic), pageSize, start) && ReadWhole(cardViews, pageSize, cards)
        && var end := RunOver(StartTick(start), start, BoardEntities(start + cards), publish, work);
           log == end.log && r.value == end.run && noted == end.noted
    {
      cards, noted := [], [];
      var notes := ReadNotes(traffic, pageSize);
      start := log;
      if notes.Err? { return Err(notes.error), start, cards, noted; }
      var read := ReadAll(cardViews, pageSize);
      if read.Err? { return Err(read.error), start, cards, noted; }
      cards := read.value;
      var known := CollectEntities(notes.value, read.value);
      var run;
      run, noted := HandleAll(work, known, publish);
      r := Ok(run);
    }
  }

  /** The notes channel as each page request finds it; traffic holds what arrives before each. */
  function ViewsOf(log: Log, traffic: seq<seq<Draft>>): (views: seq<Log>)
    ensures |views| == |traffic|
  {
    if traffic == [] then []
    else
      var front := ViewsOf(log, traffic[..|traffic| - 1]);
      front + [PostAll(if front == [] then log else front[|front| - 1], traffic[|traffic| - 1])]
  }

  lemma {:induction false} ViewsGrow(log: Log, traffic: seq<seq<Draft>>)
    requires NotesChannel(log)
    ensures FairViews(log, ViewsOf(log, traffic))
  {
    if traffic != [] {
      var front := ViewsOf(log, traffic[..|traffic| - 1]);
      ViewsGrow(log, traffic[..|traffic| - 1]);
      var before := if front == [] then log else front[|front| - 1];
      assert NotesChannel(before);
      PostAllKeepsChannel(before, traffic[|traffic| - 1]);
      FairSnoc(log, front, before, PostAll(before, traffic[|traffic| - 1]));
    }
  }

  predicate FairViews(log: Log, views: seq<Log>)
  {
    Views(views) && forall i :: 0 <= i < |views| ==> NotesChannel(views[i]) && Grows(log, views[i])
  }

  lemma FairSnoc(log: Log, front: seq<Log>, before: Log, v: Log)
    requires FairViews(log, front) && before == if front == [] then log else front[|front| - 1]
    requires NotesChannel(v) && Grows(before, v)
    ensures FairViews(log, front + [v])
  {
    forall i | 0 <= i < |front| ensures Grows(front[i], v) { assert Grows(front[i], front[|front| - 1]); }
  }

  /** The entities that the arbiter saw on the board in this tick. */
  function BoardEntities(messages: seq<Message>): set<string>
  {
    if messages == [] then {}
    else
      var entity := messages[|messages| - 1].entity;
      BoardEntities(messages[..|messages| - 1]) + if entity == "" then {} else {entity}
  }

  lemma {:induction false} BoardEntitiesAre(messages: seq<Message>, entity: string)
    ensures entity in BoardEntities(messages) <==> entity != "" && exists m :: m in messages && m.entity == entity
  {
    if messages != [] {
      var front, last := messages[..|messages| - 1], messages[|messages| - 1];
      BoardEntitiesAre(front, entity);
      assert forall m :: m in messages <==> m in front || m == last;
    }
  }

  method CollectEntities(notes: Log, cards: Log) returns (ids: set<string>)
    ensures ids == BoardEntities(notes + cards)
  {
    var messages := notes + cards;
    ids := {};
    for i := 0 to |messages|
      invariant ids == BoardEntities(messages[..i])
    {
      assert messages[..i + 1][..i] == messages[..i];
      if messages[i].entity != "" { ids := ids + {messages[i].entity}; }
    }
    assert messages[..|messages|] == messages;
  }

  lemma HandleKeepsChannel(t: Tick, snapshot: Log, known: set<string>, publish: bool, subject: Subject, env: Env)
    requires NotesChannel(t.log)
    ensures var next := Handle(t, snapshot, known, publish, subject, env);
      NotesChannel(next.log) && Grows(t.log, next.log)
  {
    PostAllKeepsChannel(t.log, env.traffic);
    if env.reply.Recommended? {
      PostKeepsChannel(PostAll(t.log, env.traffic), NoteDraft(subject, env.reply.rec, known));
    }
  }

  // ----- any sequence of ticks ----------------------------------------------

  datatype Event = Others(drafts: seq<Draft>) | Ticks(work: seq<(Subject, Env)>, known: set<string>, publish: bool)

  /** The channel, and the subjects whose notes the arbiter has put on it. */
  datatype World = World(log: Log, noted: seq<string>)

  function After(w: World, e: Event): World
  {
    match e
    case Others(drafts) => w.(log := PostAll(w.log, drafts))
    case Ticks(work, known, publish) =>
      var end := RunOver(StartTick(w.log), w.log, known, publish, work);
      World(end.log, w.noted + end.noted)
  }

  function History(events: seq<Event>): World
  {
    if events == [] then World([], []) else After(History(events[..|events| - 1]), events[|events| - 1])
  }

  /** An A2 note on the channel references the subject. */
  predicate Noted(log: Log, subject: string)
  {
    exists m :: m in log && A2Note(m) && subject in m.refs
  }

  lemma NotedGrows(log: Log, later: Log, subject: string)
    requires Noted(log, subject) && Grows(log, later)
    ensures Noted(later, subject)
  {
    var m :| m in log && A2Note(m) && subject in m.refs;
    InLater(log, later, later, m);
  }

  /** A subject noted before the tick is suppressed in it, of whatever kind it is. */
  lemma NotedIsSuppressed(t: Tick, snapshot: Log, known: set<string>, publish: bool, subject: Subject, env: Env)
    requires NotesChannel(t.log) && Grows(snapshot, t.log) && Noted(snapshot, subject.id)
    ensures Handle(t, snapshot, known, publish, subject, env) == Suppress(t, PostAll(t.log, env.traffic), subject)
  {
    var log := PostAll(t.log, env.traffic);
    PostAllKeepsChannel(t.log, env.traffic);
    var m :| m in snapshot && A2Note(m) && subject.id in m.refs;
    InLater(snapshot, t.log, log, m);
    assert m.id in RefIds(log, subject.id);
  }

  /** Over a whole tick, a subject noted before it is neither noted nor emitted. */
  lemma {:induction false} NotedIsNeverEmitted(start: Log, known: set<string>, publish: bool, work: seq<(Subject, Env)>, id: string)
    requires NotesChannel(start) && Noted(start, id)
    ensures KeptOut(start, RunOver(StartTick(start), start, known, publish, work), work, id)
  {
    if work != [] {
      var front, last := work[..|work| - 1], work[|work| - 1];
      assert work == front + [last];
      NotedIsNeverEmitted(start, known, publish, front, id);
      var t := RunOver(StartTick(start), start, known, publish, front);
      NotedStaysOut(t, start, known, publish, front, last, id);
    }
  }

  /** Neither noted nor emitted nor refused, and suppressed wherever it comes up. */
  predicate KeptOut(start: Log, end: Tick, work: seq<(Subject, Env)>, id: string)
  {
    && NotesChannel(end.log) && Grows(start, end.log)
    && id !in end.noted && id !in end.seen && id !in end.run.refused
    && (forall e :: e in end.run.emitted ==> e.subject != id)
    && (forall w :: w in work && w.0.id == id ==> id in end.run.suppressed)
  }

  lemma NotedStaysOut(t: Tick, start: Log, known: set<string>, publish: bool, front: seq<(Subject, Env)>, last: (Subject, Env), id: string)
    requires NotesChannel(start) && Noted(start, id) && KeptOut(start, t, front, id)
    ensures KeptOut(start, Handle(t, start, known, publish, last.0, last.1), front + [last], id)
  {
    HandleKeepsChannel(t, start, known, publish, last.0, last.1);
    if last.0.id == id { NotedIsSuppressed(t, start, known, publish, last.0, last.1); }
    assert forall w :: w in front + [last] <==> w in front || w == last;
  }

  /** What a tick has noted so far: each subject once, each of them on the channel, none of them
      noted before the tick. */
  ghost predicate TickSound(t: Tick, start: Log)
  {
    && NotesChannel(t.log) && Grows(start, t.log)
    && (forall i, j :: 0 <= i < j < |t.noted| ==> t.noted[i] != t.noted[j])
    && (forall id :: id in t.noted ==> id in t.seen)
    && (forall id :: id in t.noted && id != "" ==> Noted(t.log, id) && !Noted(start, id))
  }

  lemma NewNoteIsFound(log: Log, subject: Subject, rec: Recommendation, known: set<string>)
    requires subject.id != ""
    ensures Noted(Post(log, NoteDraft(subject, rec, known)), subject.id)
  {
    NoteTargets(subject, rec, known);
    NoteIsMarked(rec);
    var later := Post(log, NoteDraft(subject, rec, known));
    assert later[|log|] in later;
  }

  /** Whoever is noted now was not noted at the tick's start. */
  lemma NotedIsNew(t: Tick, start: Log, known: set<string>, publish: bool, subject: Subject, env: Env)
    requires TickSound(t, start) && Handle(t, start, known, publish, subject, env).noted != t.noted
    ensures var next := Handle(t, start, known, publish, subject, env);
      && next.noted == t.noted + [subject.id] && subject.id !in t.seen && subject.id in next.seen
      && (subject.id != "" ==> Noted(next.log, subject.id) && !Noted(start, subject.id))
  {
    if subject.id != "" {
      NewNoteIsFound(PostAll(t.log, env.traffic), subject, env.reply.rec, known);
      if Noted(start, subject.id) { NotedIsSuppressed(t, start, known, publish, subject, env); }
    }
  }

  lemma HandleSound(t: Tick, start: Log, known: set<string>, publish: bool, subject: Subject, env: Env)
    requires TickSound(t, start)
    ensures TickSound(Handle(t, start, known, publish, subject, env), start)
  {
    var next := Handle(t, start, known, publish, subject, env);
    HandleKeepsChannel(t, start, known, publish, subject, env);
    SeenGrows(t, start, known, publish, subject, env);
    forall id | id in t.noted && id != "" ensures Noted(next.log, id) { NotedGrows(t.log, next.log, id); }
    if next.noted != t.noted { NotedIsNew(t, start, known, publish, subject, env); }
  }

  lemma SeenGrows(t: Tick, snapshot: Log, known: set<string>, publish: bool, subject: Subject, env: Env)
    ensures t.seen <= Handle(t, snapshot, known, publish, subject, env).seen
  {
  }

  lemma {:induction false} TickIsSound(start: Log, known: set<string>, publish: bool, work: seq<(Subject, Env)>)
    requires NotesChannel(start)
    ensures TickSound(RunOver(StartTick(start), start, known, publish, work), start)
  {
    if work != [] {
      TickIsSound(start, known, publish, work[..|work| - 1]);
      var t := RunOver(StartTick(start), start, known, publish, work[..|work| - 1]);
      HandleSound(t, start, known, publish, work[|work| - 1].0, work[|work| - 1].1);
    }
  }

  // ----- what a tick comes to, from its inputs alone --------------------------

  /** What becomes of one subject of a tick. */
  datatype Fate = Skipped | Declined | NotStored | StoredUnheard | Published | Rehearsed

  /** The subject came up earlier in this tick, or was noted before the tick. */
  ghost predicate Settled(start: Log, work: seq<(Subject, Env)>, k: nat)
    requires k < |work|
  {
    Noted(start, work[k].0.id) || exists j :: 0 <= j < k && work[j].0.id == work[k].0.id
  }

  ghost function FateOf(start: Log, publish: bool, work: seq<(Subject, Env)>, k: nat): Fate
    requires k < |work|
  {
    var env := work[k].1;
    if Settled(start, work, k) then Skipped
    else if env.reply == Refused then Declined
    else if !publish then Rehearsed
    else
      match env.outcome
      case Delivered => Published
      case Failed => NotStored
      case Lost => StoredUnheard
  }

  ghost function FatesOf(start: Log, publish: bool, work: seq<(Subject, Env)>): (fates: seq<Fate>)
    ensures |fates| == |work|
    ensures forall k :: 0 <= k < |work| ==> fates[k] == FateOf(start, publish, work, k)
  {
    seq(|work|, k requires 0 <= k < |work| => FateOf(start, publish, work, k))
  }

  /** The ids of the subjects that one of these fates befell, in order. */
  function IdsWith(work: seq<(Subject, Env)>, fates: seq<Fate>, wanted: set<Fate>): seq<string>
    requires |fates| == |work|
  {
    if work == [] then []
    else
      IdsWith(work[..|work| - 1], fates[..|work| - 1], wanted)
      + if fates[|work| - 1] in wanted then [work[|work| - 1].0.id] else []
  }

  /** What is reported as emitted: the published, or the rehearsed marked dry. */
  function EmittedWith(work: seq<(Subject, Env)>, fates: seq<Fate>, known: set<string>): seq<Emitted>
    requires |fates| == |work|
  {
    if work == [] then []
    else
      var (subject, env) := work[|work| - 1];
      EmittedWith(work[..|work| - 1], fates[..|work| - 1], known)
      + if fates[|work| - 1] in {Published, Rehearsed} && env.reply.Recommended?
        then [Emitted(subject.id, if env.reply.rec.target == "" then "progress" else "finding",
                      SubjectRefs(subject, env.reply.rec, known), fates[|work| - 1] == Rehearsed)]
        else []
  }

  /** The channel: before each subject the others' drafts, behind it its note if one was stored. */
  function ChannelWith(start: Log, work: seq<(Subject, Env)>, fates: seq<Fate>, known: set<string>): Log
    requires |fates| == |work|
  {
    if work == [] then start
    else
      var (subject, env) := work[|work| - 1];
      var log := PostAll(ChannelWith(start, work[..|work| - 1], fates[..|work| - 1], known), env.traffic);
      if fates[|work| - 1] in {Published, StoredUnheard} && env.reply.Recommended?
      then Post(log, NoteDraft(subject, env.reply.rec, known))
      else log
  }

  lemma ReferencedIsNoted(now: Log, snapshot: Log, id: string)
    requires NotesChannel(now) && Grows(snapshot, now)
    ensures Referenced(now, id, snapshot) <==> Noted(snapshot, id)
  {
    if Referenced(now, id, snapshot) {
      var m :| m in snapshot && m.id in RefIds(now, id) && A2Note(m);
      var n :| n in now && id in n.refs && n.id == m.id;
      InLater(snapshot, now, now, m);
      SameMessage(now, m, n);
    }
    if m :| m in snapshot && A2Note(m) && id in m.refs {
      InLater(snapshot, now, now, m);
      assert m.id in RefIds(now, id);
    }
  }

  lemma SettledSnoc(start: Log, front: seq<(Subject, Env)>, last: (Subject, Env), seen: set<string>)
    requires forall id :: id in seen <==> !Noted(start, id) && exists j :: 0 <= j < |front| && front[j].0.id == id
    ensures Settled(start, front + [last], |front|) <==> last.0.id in seen || Noted(start, last.0.id)
  {
    var work := front + [last];
    assert forall j :: 0 <= j < |front| ==> work[j] == front[j];
  }

  lemma FatesFront(start: Log, publish: bool, front: seq<(Subject, Env)>, last: (Subject, Env))
    ensures FatesOf(start, publish, front + [last])[..|front|] == FatesOf(start, publish, front)
  {
    var work := front + [last];
    forall k | 0 <= k < |front| ensures FateOf(start, publish, work, k) == FateOf(start, publish, front, k) {
      assert work[k] == front[k] && forall j :: 0 <= j < k ==> work[j] == front[j];
    }
  }

  /** What the tick has come to: channel, notes, reports and the subjects it will not take up again. */
  ghost predicate ComesTo(end: Tick, start: Log, known: set<string>, publish: bool, work: seq<(Subject, Env)>)
  {
    var fates := FatesOf(start, publish, work);
    && end.log == ChannelWith(start, work, fates, known)
    && end.noted == IdsWith(work, fates, {Published, StoredUnheard})
    && end.run.suppressed == IdsWith(work, fates, {Skipped})
    && end.run.refused == IdsWith(work, fates, {Declined, NotStored, StoredUnheard})
    && end.run.emitted == EmittedWith(work, fates, known)
  }

  ghost predicate SeenSoFar(seen: set<string>, start: Log, work: seq<(Subject, Env)>)
  {
    forall id :: id in seen <==> !Noted(start, id) && exists j :: 0 <= j < |work| && work[j].0.id == id
  }

  /** One subject's share of the reports and of the channel. */
  predicate Adds(t: Tick, next: Tick, subject: Subject, env: Env, known: set<string>, fate: Fate)
  {
    var log := PostAll(t.log, env.traffic);
    var stored, told := fate in {Published, StoredUnheard}, fate in {Published, Rehearsed};
    && (stored || told ==> env.reply.Recommended?)
    && next.log == (if stored then Post(log, NoteDraft(subject, env.reply.rec, known)) else log)
    && next.noted == t.noted + (if stored then [subject.id] else [])
    && next.run.suppressed == t.run.suppressed + (if fate in {Skipped} then [subject.id] else [])
    && next.run.refused == t.run.refused + (if fate in {Declined, NotStored, StoredUnheard} then [subject.id] else [])
    && next.run.emitted == t.run.emitted
       + if told then [Emitted(subject.id, if env.reply.rec.target == "" then "progress" else "finding",
                               SubjectRefs(subject, env.reply.rec, known), fate == Rehearsed)] else []
  }

  lemma HandleAdds(t: Tick, start: Log, known: set<string>, publish: bool, front: seq<(Subject, Env)>, last: (Subject, Env), fate: Fate)
    requires NotesChannel(t.log) && Grows(start, t.log) && SeenSoFar(t.seen, start, front)
    requires fate == FateOf(start, publish, front + [last], |front|)
    ensures Adds(t, Handle(t, start, known, publish, last.0, last.1), last.0, last.1, known, fate)
  {
    PostAllKeepsChannel(t.log, last.1.traffic);
    ReferencedIsNoted(PostAll(t.log, last.1.traffic), start, last.0.id);
    SettledSnoc(start, front, last, t.seen);
  }

  lemma AddsComesTo(t: Tick, next: Tick, start: Log, known: set<string>, publish: bool, front: seq<(Subject, Env)>, last: (Subject, Env))
    requires ComesTo(t, start, known, publish, front)
    requires Adds(t, next, last.0, last.1, known, FateOf(start, publish, front + [last], |front|))
    ensures ComesTo(next, start, known, publish, front + [last])
  {
    var fates, fate := FatesOf(start, publish, front), FateOf(start, publish, front + [last], |front|);
    FatesFront(start, publish, front, last);
    FatesSnoc(FatesOf(start, publish, front + [last]), fates, fate);
    ChannelNext(start, front, last, fates, fate, known);
    IdsNext(front, last, fates, fate, {Published, StoredUnheard});
    IdsNext(front, last, fates, fate, {Skipped});
    IdsNext(front, last, fates, fate, {Declined, NotStored, StoredUnheard});
    EmittedLast(front, last, fates, fate, known);
  }

  lemma FatesSnoc(all: seq<Fate>, fates: seq<Fate>, fate: Fate)
    requires |all| == |fates| + 1 && all[..|fates|] == fates && all[|fates|] == fate
    ensures all == fates + [fate]
  {
  }

  lemma ChannelNext(start: Log, front: seq<(Subject, Env)>, last: (Subject, Env), fates: seq<Fate>, fate: Fate, known: set<string>)
    requires |fates| == |front|
    ensures ChannelWith(start, front + [last], fates + [fate], known)
      == var log := PostAll(ChannelWith(start, front, fates, known), last.1.traffic);
         if fate in {Published, StoredUnheard} && last.1.reply.Recommended?
         then Post(log, NoteDraft(last.0, last.1.reply.rec, known)) else log
  {
    assert (front + [last])[..|front|] == front && (fates + [fate])[..|front|] == fates;
  }

  lemma IdsNext(front: seq<(Subject, Env)>, last: (Subject, Env), fates: seq<Fate>, fate: Fate, wanted: set<Fate>)
    requires |fates| == |front|
    ensures IdsWith(front + [last], fates + [fate], wanted)
      == IdsWith(front, fates, wanted) + if fate in wanted then [last.0.id] else []
  {
    assert (front + [last])[..|front|] == front && (fates + [fate])[..|front|] == fates;
  }

  lemma EmittedLast(front: seq<(Subject, Env)>, last: (Subject, Env), fates: seq<Fate>, fate: Fate, known: set<string>)
    requires |fates| == |front|
    ensures EmittedWith(front + [last], fates + [fate], known)
      == EmittedWith(front, fates, known)
         + if fate in {Published, Rehearsed} && last.1.reply.Recommended?
           then [Emitted(last.0.id, if last.1.reply.rec.target == "" then "progress" else "finding",
                         SubjectRefs(last.0, last.1.reply.rec, known), fate == Rehearsed)]
           else []
  {
    assert (front + [last])[..|front|] == front && (fates + [fate])[..|front|] == fates;
  }

  lemma HandleComesTo(t: Tick, start: Log, known: set<string>, publish: bool, front: seq<(Subject, Env)>, last: (Subject, Env))
    requires NotesChannel(t.log) && Grows(start, t.log)
    requires ComesTo(t, start, known, publish, front) && SeenSoFar(t.seen, start, front)
    ensures ComesTo(Handle(t, start, known, publish, last.0, last.1), start, known, publish, front + [last])
  {
    HandleAdds(t, start, known, publish, front, last, FateOf(start, publish, front + [last], |front|));
    AddsComesTo(t, Handle(t, start, known, publish, last.0, last.1), start, known, publish, front, last);
  }

  lemma HandleSees(t: Tick, start: Log, known: set<string>, publish: bool, front: seq<(Subject, Env)>, last: (Subject, Env))
    requires NotesChannel(t.log) && Grows(start, t.log) && SeenSoFar(t.seen, start, front)
    ensures SeenSoFar(Handle(t, start, known, publish, last.0, last.1).seen, start, front + [last])
  {
    var work, next := front + [last], Handle(t, start, known, publish, last.0, last.1);
    PostAllKeepsChannel(t.log, last.1.traffic);
    ReferencedIsNoted(PostAll(t.log, last.1.traffic), start, last.0.id);
    assert next.seen == if Noted(start, last.0.id) then t.seen else t.seen + {last.0.id};
    forall id ensures id in next.seen <==> !Noted(start, id) && exists j :: 0 <= j < |work| && work[j].0.id == id {
      IdsSnoc(front, last, id);
    }
  }

  lemma IdsSnoc(front: seq<(Subject, Env)>, last: (Subject, Env), id: string)
    ensures (exists j :: 0 <= j < |front + [last]| && (front + [last])[j].0.id == id)
      <==> last.0.id == id || exists j :: 0 <= j < |front| && front[j].0.id == id
  {
    var work := front + [last];
    assert work[|front|] == last && forall j :: 0 <= j < |front| ==> work[j] == front[j];
  }

  /** A tick, subject by subject, from the channel at its start and what happens in it: suppressed if
      it was noted before or came up before, refused if the reasoner or the publish fails, else
      emitted; a note is stored exactly for what is published, its answer heard or not. */
  lemma {:induction false} TickComesTo(start: Log, known: set<string>, publish: bool, work: seq<(Subject, Env)>)
    requires NotesChannel(start)
    ensures var end := RunOver(StartTick(start), start, known, publish, work);
      ComesTo(end, start, known, publish, work) && SeenSoFar(end.seen, start, work)
  {
    if work != [] {
      var front, last := work[..|work| - 1], work[|work| - 1];
      var t := RunOver(StartTick(start), start, known, publish, front);
      assert work == front + [last];
      TickComesTo(start, known, publish, front);
      TickIsSound(start, known, publish, front);
      HandleComesTo(t, start, known, publish, front, last);
      HandleSees(t, start, known, publish, front, last);
    }
  }

  function Traffic(work: seq<(Subject, Env)>): seq<Draft>
  {
    if work == [] then [] else Traffic(work[..|work| - 1]) + work[|work| - 1].1.traffic
  }

  lemma {:induction false} PostAllTwice(log: Log, a: seq<Draft>, b: seq<Draft>)
    ensures PostAll(PostAll(log, a), b) == PostAll(log, a + b)
  {
    if b == [] {
      assert a + b == a;
    } else {
      PostAllTwice(log, a, b[..|b| - 1]);
      LastSplit(a, b);
      assert ((a + b[..|b| - 1]) + [b[|b| - 1]])[..|a + b| - 1] == a + b[..|b| - 1];
    }
  }

  predicate Unpublished(fates: seq<Fate>) { forall i :: 0 <= i < |fates| ==> fates[i] != Published && fates[i] != StoredUnheard }

  lemma {:induction false} UnpublishedChannel(start: Log, work: seq<(Subject, Env)>, fates: seq<Fate>, known: set<string>)
    requires |fates| == |work| && Unpublished(fates)
    ensures ChannelWith(start, work, fates, known) == PostAll(start, Traffic(work))
  {
    if work != [] {
      var n := |work| - 1;
      UnpublishedChannel(start, work[..n], fates[..n], known);
      PostAllTwice(start, Traffic(work[..n]), work[n].1.traffic);
      UnpublishedNext(start, work, fates, known);
    }
  }

  lemma UnpublishedNext(start: Log, work: seq<(Subject, Env)>, fates: seq<Fate>, known: set<string>)
    requires work != [] && |fates| == |work| && Unpublished(fates)
    ensures var n := |work| - 1;
      ChannelWith(start, work, fates, known) == PostAll(ChannelWith(start, work[..n], fates[..n], known), work[n].1.traffic)
  {
    var n := |work| - 1;
    assert work == work[..n] + [work[n]] && fates == fates[..n] + [fates[n]];
    ChannelNext(start, work[..n], work[n], fates[..n], fates[n], known);
  }

  lemma {:induction false} UnpublishedIsDry(work: seq<(Subject, Env)>, fates: seq<Fate>, known: set<string>)
    requires |fates| == |work| && Unpublished(fates)
    ensures IdsWith(work, fates, {Published, StoredUnheard}) == []
    ensures forall e :: e in EmittedWith(work, fates, known) ==> e.dryRun
  {
    if work != [] { UnpublishedIsDry(work[..|work| - 1], fates[..|work| - 1], known); }
  }

  /** A dry tick writes nothing: no note, nothing on the channel but what others post, in their
      order, and everything it reports is marked dry. */
  lemma DryTickWritesNothing(start: Log, known: set<string>, work: seq<(Subject, Env)>)
    requires NotesChannel(start)
    ensures var end := RunOver(StartTick(start), start, known, false, work);
      && end.noted == [] && end.log == PostAll(start, Traffic(work)) && forall e :: e in end.run.emitted ==> e.dryRun
  {
    TickComesTo(start, known, false, work);
    UnpublishedChannel(start, work, FatesOf(start, false, work), known);
    UnpublishedIsDry(work, FatesOf(start, false, work), known);
  }

  function TimesEmitted(emitted: seq<Emitted>, id: string): nat
  {
    if emitted == [] then 0 else TimesEmitted(emitted[..|emitted| - 1], id) + if emitted[|emitted| - 1].subject == id then 1 else 0
  }

  lemma TimesEmittedSnoc(front: seq<Emitted>, e: Emitted, id: string)
    ensures TimesEmitted(front + [e], id) == TimesEmitted(front, id) + if e.subject == id then 1 else 0
  {
    assert (front + [e])[..|front|] == front;
  }

  /** How often the entry k is told of among the first n. */
  ghost function ToldOf(start: Log, known: set<string>, publish: bool, work: seq<(Subject, Env)>, k: nat, n: nat): nat
    requires k < |work| && n <= |work|
  {
    TimesEmitted(EmittedWith(work[..n], FatesOf(start, publish, work)[..n], known), work[k].0.id)
  }

  lemma ToldNext(start: Log, known: set<string>, publish: bool, work: seq<(Subject, Env)>, k: nat, n: nat)
    requires k < |work| && n < |work| && FateOf(start, publish, work, k) in {Published, Rehearsed}
    ensures ToldOf(start, known, publish, work, k, n + 1) == ToldOf(start, known, publish, work, k, n) + if n == k then 1 else 0
  {
    var fates := FatesOf(start, publish, work);
    Fronts(work, n);
    Fronts(fates, n);
    EmittedNext(work[..n + 1], fates[..n + 1], known, work[k].0.id);
    ToldOnce(start, publish, work, k, n);
  }

  lemma {:induction false} EmittedOnce(start: Log, known: set<string>, publish: bool, work: seq<(Subject, Env)>, k: nat, n: nat)
    requires k < |work| && n <= |work| && FateOf(start, publish, work, k) in {Published, Rehearsed}
    ensures ToldOf(start, known, publish, work, k, n) == if n > k then 1 else 0
  {
    if n > 0 {
      EmittedOnce(start, known, publish, work, k, n - 1);
      ToldNext(start, known, publish, work, k, n - 1);
    }
  }

  /** Of the entries of one subject only the first can be told of. */
  lemma ToldOnce(start: Log, publish: bool, work: seq<(Subject, Env)>, k: nat, j: nat)
    requires k < |work| && j < |work| && FateOf(start, publish, work, k) in {Published, Rehearsed}
    ensures j == k <==>
      FateOf(start, publish, work, j) in {Published, Rehearsed} && work[j].1.reply.Recommended? && work[j].0.id == work[k].0.id
  {
    assert j < k && work[j].0.id == work[k].0.id ==> Settled(start, work, k);
    assert k < j && work[j].0.id == work[k].0.id ==> Settled(start, work, j);
  }

  lemma EmittedNext(work: seq<(Subject, Env)>, fates: seq<Fate>, known: set<string>, id: string)
    requires work != [] && |fates| == |work|
    ensures var n := |work| - 1;
      TimesEmitted(EmittedWith(work, fates, known), id) == TimesEmitted(EmittedWith(work[..n], fates[..n], known), id)
        + if fates[n] in {Published, Rehearsed} && work[n].1.reply.Recommended? && work[n].0.id == id then 1 else 0
  {
    var n := |work| - 1;
    var e := EmittedWith(work[..n], fates[..n], known);
    var (subject, env) := work[n];
    if env.reply.Recommended? {
      TimesEmittedSnoc(e, Emitted(subject.id, if env.reply.rec.target == "" then "progress" else "finding",
                                  SubjectRefs(subject, env.reply.rec, known), fates[n] == Rehearsed), id);
    }
    assert e + [] == e;
  }

  /** The note of this subject and recommendation stands on the channel. */
  ghost predicate NoteStands(log: Log, subject: Subject, rec: Recommendation)
  {
    exists m :: m in log && m.kind == "work.note.v1" && m.payload.card == subject.card && m.payload.note == RenderNote(rec)
                && m.payload.noteType == (if rec.target == "" then "progress" else "finding")
                && subject.card in m.refs && (subject.id != "" ==> subject.id in m.refs)
  }

  lemma PostedStands(log: Log, subject: Subject, rec: Recommendation, known: set<string>)
    ensures NoteStands(Post(log, NoteDraft(subject, rec, known)), subject, rec)
  {
    NoteTargets(subject, rec, known);
    var later := Post(log, NoteDraft(subject, rec, known));
    assert later[|log|] in later;
  }

  lemma StandingGrows(log: Log, later: Log, subject: Subject, rec: Recommendation)
    requires NoteStands(log, subject, rec) && Grows(log, later)
    ensures NoteStands(later, subject, rec)
  {
    var m :| m in log && m.kind == "work.note.v1" && m.payload.card == subject.card && m.payload.note == RenderNote(rec)
             && m.payload.noteType == (if rec.target == "" then "progress" else "finding")
             && subject.card in m.refs && (subject.id != "" ==> subject.id in m.refs);
    InLater(log, later, later, m);
  }

  lemma {:induction false} StoredStands(start: Log, work: seq<(Subject, Env)>, fates: seq<Fate>, known: set<string>, k: nat)
    requires NotesChannel(start) && |fates| == |work|
    requires k < |work| && fates[k] in {Published, StoredUnheard} && work[k].1.reply.Recommended?
    ensures NoteStands(ChannelWith(start, work, fates, known), work[k].0, work[k].1.reply.rec)
    decreases |work|
  {
    var n := |work| - 1;
    var before := ChannelWith(start, work[..n], fates[..n], known);
    if k < n {
      StoredStands(start, work[..n], fates[..n], known, k);
      ChannelSnoc(start, work, fates, known);
      StandingGrows(before, ChannelWith(start, work, fates, known), work[k].0, work[k].1.reply.rec);
    } else {
      PostedStands(PostAll(before, work[n].1.traffic), work[n].0, work[n].1.reply.rec, known);
    }
  }

  lemma {:induction false} ChannelSnoc(start: Log, work: seq<(Subject, Env)>, fates: seq<Fate>, known: set<string>)
    requires NotesChannel(start) && |fates| == |work|
    ensures NotesChannel(ChannelWith(start, work, fates, known))
    ensures work != [] ==>
      Grows(ChannelWith(start, work[..|work| - 1], fates[..|work| - 1], known), ChannelWith(start, work, fates, known))
  {
    if work != [] {
      var n := |work| - 1;
      var (subject, env) := work[n];
      var before := ChannelWith(start, work[..n], fates[..n], known);
      ChannelSnoc(start, work[..n], fates[..n], known);
      PostAllKeepsChannel(before, env.traffic);
      if env.reply.Recommended? { PostKeepsChannel(PostAll(before, env.traffic), NoteDraft(subject, env.reply.rec, known)); }
    }
  }

  /** A subject that was not noted before and comes up for the first time, with a recommendation and
      a publish that is delivered, is emitted exactly once, and its note stands on the channel with
      its card, its text, its type and itself among the targets. */
  lemma DeliveredIsEmitted(start: Log, known: set<string>, work: seq<(Subject, Env)>, k: nat)
    requires NotesChannel(start) && k < |work|
    requires !Noted(start, work[k].0.id) && forall j :: 0 <= j < k ==> work[j].0.id != work[k].0.id
    requires work[k].1.reply.Recommended? && work[k].1.outcome == Delivered
    ensures var end := RunOver(StartTick(start), start, known, true, work);
      && TimesEmitted(end.run.emitted, work[k].0.id) == 1
      && NoteStands(end.log, work[k].0, work[k].1.reply.rec)
  {
    var fates := FatesOf(start, true, work);
    TickComesTo(start, known, true, work);
    assert fates[k] == Published;
    EmittedOnce(start, known, true, work, k, |work|);
    assert work[..|work|] == work && fates[..|work|] == fates;
    StoredStands(start, work, fates, known, k);
  }

  ghost predicate WorldSound(w: World)
  {
    && NotesChannel(w.log)
    && (forall id :: id in w.noted && id != "" ==> Noted(w.log, id))
    && (forall i, j :: 0 <= i < j < |w.noted| && w.noted[i] != "" ==> w.noted[i] != w.noted[j])
  }

  lemma AfterSound(w: World, e: Event)
    requires WorldSound(w)
    ensures WorldSound(After(w, e)) && Grows(w.log, After(w, e).log)
  {
    match e
    case Others(drafts) =>
      PostAllKeepsChannel(w.log, drafts);
      forall id | id in w.noted && id != "" ensures Noted(After(w, e).log, id) { NotedGrows(w.log, After(w, e).log, id); }
    case Ticks(work, known, publish) =>
      TickIsSound(w.log, known, publish, work);
      var end := RunOver(StartTick(w.log), w.log, known, publish, work);
      forall id | id in w.noted && id != "" ensures Noted(end.log, id) { NotedGrows(w.log, end.log, id); }
      NoRepeats(w.noted, end.noted);
  }

  lemma NoRepeats(a: seq<string>, b: seq<string>)
    requires forall i, j :: 0 <= i < j < |a| && a[i] != "" ==> a[i] != a[j]
    requires forall i, j :: 0 <= i < j < |b| ==> b[i] != b[j]
    requires forall x :: x in a && x != "" ==> x !in b
    ensures forall i, j :: 0 <= i < j < |a + b| && (a + b)[i] != "" ==> (a + b)[i] != (a + b)[j]
  {
    var c := a + b;
    assert forall i :: 0 <= i < |a| ==> c[i] == a[i] && c[i] in a;
    assert forall i :: |a| <= i < |c| ==> c[i] == b[i - |a|] && c[i] in b;
  }

  /** Over any sequence of ticks, publishing or dry, among any other traffic, whatever the reasoner
      answers and however publishing fails, each named subject gets at most one note. */
  lemma {:induction false} AtMostOneNote(events: seq<Event>)
    ensures WorldSound(History(events))
  {
    if events != [] {
      AtMostOneNote(events[..|events| - 1]);
      AfterSound(History(events[..|events| - 1]), events[|events| - 1]);
    }
  }
}
