# Verification model of fleet_graph's bookkeeping and protocols

This project models, in Dafny, the parts of fleet_graph that carry state, parse text or run a
protocol, and proves what they keep. Functions specify; methods and classes follow the
program's own loops and fields and are proved against them; lemmas state what the program is for.

| Files | What they model |
|---|---|
| `Text`, `Sorting`, `Dict`, `Json` | Python's strings, stable sort, insertion-ordered dict and decoded JSON |
| `Exposition`, `Wire`, `RoundTrip`, `Unambiguous` | the text exposition format: printer, parser, the format rule by rule, when they undo each other, and that the text is unambiguous |
| `DataPlane`, `MergedView`, `PlaneRuns`, `PlaneShape`, `Resume`, `FixedPoint`, `OwnRuns`, `Booking`, `Lifecycles` | the cost data plane: idempotent facts, merged view, reconciliation, suspend and resume, and what a run's calls come to |
| `Verdict` | the gate verdict normalizer and its grammar |
| `BusLog` | an append-only channel read in pages while it grows; the gate's decision lookup |
| `Subjects`, `Arbiter` | the read-only arbiter: what it works on, one tick, and all sequences of ticks |
| `Inbox` | the must-deliver inbox under crashes and expiring leases |
| `LineRegistration` | preparing a line's credentials as atomic steps |
| `RateHeader`, `Anchor` | the anchor check of a research report and its rate header |
| `WorkReport`, `ReportShape` | the strict decoder of worker turn reports, and what it lets through |
| `Timeouts`, `TimeoutAccounts`, `DdSection` | the two tracks of the turn-timeout report |
| `Syntax`, `Guard`, `Gating` | the conformance check over syntax trees |

The environment is part of the statements, not left to chance: channels grow between any two
requests, requests are lost before or after they take effect, leases expire, other actors bind
aliases and issue tokens, and the process may stop between any two steps.

## Findings

Where the documentation promises more than the code does, the code is modelled and the exact
condition is proved.

- The exposition format does not bring back a label value with a comma or with a line break other
  than the line feed (`RoundTrip.ParseRender`, if and only if; `RoundTrip.CommaIsLost`).
- The parser takes a line of two or more digits and nothing else for a sample, where it is to fail
  loudly (`Wire.NumberIsASample`; `Wire.UncutLine` says what any uncut line gives).
- Suspend and resume does not reproduce the file when it holds such a value, when an order has
  plain and failure spend of one attribution, or when a lifecycle was booked on the order with the
  empty name (`FixedPoint.ResumeFixedPoint`, if and only if; `OwnRuns.FailureSpendOverwrites`,
  `OwnRuns.NamelessOrderLosesPresence`).
- A replayed emission is not always a no-op after a resume. Launches, promotions, settlements and
  management spend are recognized; other spend is recognized only under the event id it comes back
  with and is otherwise booked a second time (`OwnRuns.SpendKnownAfterResume`, if and only if;
  `OwnRuns.OrdinarySpendIsBookedTwice`), and a review attempt only if it is at most the number of
  review lines of its order and phase (`OwnRuns.ReviewKnownAfterResume`, if and only if).
- The gate lookup does not see a decision 1000 or more behind the head it read
  (`BusLog.DecisionFor`, `BusLog.OldDecisionIsMissed`), so the arbiter takes up such a question again
  (`Subjects.QuestionIsCollected`, if and only if).
- A crash after a registration whose token the bus did not file leaves a line that no retry can
  prepare (`LineRegistration.RetryAfterLostRegistration`, if and only if).
- A second anchor check, and a second rate header, are not idempotent for a report with line breaks
  other than the line feed and no header yet (`RateHeader.LastHeaderWins`, if and only if;
  `RateHeader.SecondHeaderRewrites`).
- The decoder raises a TypeError rather than a protocol error for a list or an object as a file's
  change or as the media type (`WorkReport.RaisesTypeError`, if and only if;
  `WorkReport.ListAsChangeRaises`), and unfencing rewrites line breaks inside the body
  (`WorkReport.FenceIsTransparent`, if and only if; `WorkReport.FenceRewrites`).
- The timeout report fails with a TypeError when a bucket key is a list or an object
  (`Timeouts.WholeReportCountsOnce`, if and only if; `Timeouts.ListAsSessionRaises`), and takes 1, 1.0
  and true for one key.
- The write-gating check reports a write outside every function only when no gate is called anywhere
  in the module (`Gating.ModuleScopeWriteIsReported`, if and only if;
  `Gating.ModuleScopeWriteCanPass`); its name exemption never applies, and the primitive `os.system`
  matches no call (`Gating.DottedPrimitiveIsNeverSeen`).

## Model

| member | source | states |
|---|---|---|
| RoundTrip.ParseRender | src/fleet_graph/cost_obs/exposition.py:58-129 | For every list of well-formed samples: parsing the rendered text gives the samples stably sorted by metric name, every label and value unchanged, if and only if no label value holds a comma or a line break other than the line feed. |
| RoundTrip.UnescapeEscape | src/fleet_graph/cost_obs/exposition.py:24-26 | Unescaping undoes escaping, for every string. |
| RoundTrip.ParsedIsClean | src/fleet_graph/cost_obs/exposition.py:74-129 | A comma, or a break other than the line feed, never comes out of the parser, whatever text goes in; labels come out sorted, with stripped names. |
| RoundTrip.CleanFileParses | src/fleet_graph/cost_obs/exposition.py:58-110 | A file rendered from clean samples always parses, to exactly those samples in name order. |
| RoundTrip.CommaIsLost | src/fleet_graph/cost_obs/exposition.py:113-120 | The input that shows it: one sample whose label value is a,b does not come back. |
| Unambiguous.RenderInjective | src/fleet_graph/cost_obs/exposition.py:24-71 | The text itself is unambiguous for all well-formed samples, clean or not: two lists print the same text if and only if they are the same list by name. |
| Unambiguous.EscapeEnds | src/fleet_graph/cost_obs/exposition.py:24-26 | An escaped value ends at its first bare quote, so value and rest of the line can be told apart. |
| Exposition.ByNameUnique | src/fleet_graph/cost_obs/exposition.py:64-70 | Sorted by name and keeping the order within each name fixes the output: there is one such list. |
| Exposition.ByNameKeepsGroups | src/fleet_graph/cost_obs/exposition.py:64-70 | Ordering by metric name keeps, for every name, that name's samples in emission order. |
| Exposition.GroupSamples | src/fleet_graph/cost_obs/exposition.py:64-66 | The grouping dictionary holds for each name exactly the samples of that name in order, the names without repetition. |
| Exposition.Render | src/fleet_graph/cost_obs/exposition.py:58-71 | The grouping loops print one line a sample in stable name order, with a final line feed unless there is none. |
| Exposition.Parse | src/fleet_graph/cost_obs/exposition.py:74-110 | The line loop returns the first error with its line number, or all samples in line order. |
| Exposition.ParseSample | src/fleet_graph/cost_obs/exposition.py:85-109 | One line: blank and comment lines are skipped, the cut at brace, last closing brace and blank, and the three refusals in their order. |
| Exposition.ParseLabels | src/fleet_graph/cost_obs/exposition.py:113-129 | Splits at every comma, skips blank pieces, refuses a piece without '=' or without quotes, sorts the pairs. |
| Exposition.UnescapeLabel | src/fleet_graph/cost_obs/exposition.py:132-145 | The index loop computes the recursive unescaping, a lone trailing backslash included. |
| Wire.BlockOfMore | src/fleet_graph/cost_obs/exposition.py:45-49 | The label block: each further label stands behind a comma, as key, equals sign and quoted escaped value, before the closing brace. |
| Wire.EscapeHead | src/fleet_graph/cost_obs/exposition.py:21-26 | A backslash before a backslash and a quote, the letter n behind one for a line feed, and every other character itself. |
| Wire.LineIs | src/fleet_graph/cost_obs/exposition.py:68-70 | A line: the name, the label block if there are labels, a blank and the numeral. |
| Wire.FileIs | src/fleet_graph/cost_obs/exposition.py:58-71 | The file: the samples by name, each on a line that ends with a line feed. |
| Wire.FirstRefusal | src/fleet_graph/cost_obs/exposition.py:74-110 | A text is refused for its first line that is, with that line's error and number, and otherwise every line is taken. |
| Wire.PassedOver | src/fleet_graph/cost_obs/exposition.py:84-87 | White space around a line does not count; an empty line and one that starts with '#' give no sample and no error. |
| Wire.LabelledLine | src/fleet_graph/cost_obs/exposition.py:88-102 | A line whose first brace comes before its first blank: name before it, labels up to the last closing brace, value behind. |
| Wire.PlainLine | src/fleet_graph/cost_obs/exposition.py:96-102 | A line whose first blank comes before any brace: name before it, value behind. |
| Wire.UncutLine | src/fleet_graph/cost_obs/exposition.py:88-102 | A line with neither is cut at index -1: its last character is dropped from the name and the whole line is the value. |
| Wire.UnclosedLine | src/fleet_graph/cost_obs/exposition.py:90-102 | Likewise a brace that is never closed. |
| Wire.NumberIsASample | src/fleet_graph/cost_obs/exposition.py:88-109 | So every line of two or more digits and nothing else is taken for a sample, named like the number without its last digit. |
| Wire.OddPiece | src/fleet_graph/cost_obs/exposition.py:117-122 | A blank piece of a label block is passed over, one without '=' is malformed. |
| Wire.PairPiece | src/fleet_graph/cost_obs/exposition.py:123-128 | A piece is cut at its first '='; its value must start and end with a quote, and what is between is unescaped. |
| Wire.LabelsAre | src/fleet_graph/cost_obs/exposition.py:113-129 | The labels of a text: none if it is blank, else those of its pieces in ascending order of key and value, or the first refusal. |
| Wire.UnescapeIs | src/fleet_graph/cost_obs/exposition.py:132-145 | A backslash takes the next character with it, the letter n as a line feed and every other as itself; a last backslash and all else stay. |
| Wire.NumeralsAre | src/fleet_graph/cost_obs/exposition.py:103-108 | The value texts that are taken as integers: digits, with one sign before them or none. |
| DataPlane.CostDataPlane.EmitFact | src/fleet_graph/cost_obs/data_plane.py:100-106 | A key seen before answers False and leaves samples, keys and tables alone; a new key files the sample with its labels sorted. |
| DataPlane.CostDataPlane.RecordLaunch | src/fleet_graph/cost_obs/data_plane.py:108-131 | The whole new state and the answer; the lifecycle table is updated even for a replay. |
| DataPlane.CostDataPlane.RecordReview | src/fleet_graph/cost_obs/data_plane.py:133-150 | As above per phase and attempt; a phase other than continuous and final changes nothing. |
| DataPlane.CostDataPlane.RecordPromotion | src/fleet_graph/cost_obs/data_plane.py:152-161 | The promotion fact, once an order. |
| DataPlane.CostDataPlane.RecordSettlement | src/fleet_graph/cost_obs/data_plane.py:163-172 | The settlement fact, once an order. |
| DataPlane.CostDataPlane.RecordExecutionCost | src/fleet_graph/cost_obs/data_plane.py:174-198 | The tokens under event and class; an unknown class changes nothing. |
| DataPlane.CostDataPlane.RecordFailureCost | src/fleet_graph/cost_obs/data_plane.py:206-241 | Failure spend under the key family of plain spend, with its two further labels. |
| DataPlane.CostDataPlane.MarkAbsent | src/fleet_graph/cost_obs/data_plane.py:243-251 | Adds one of the four lifecycles to the order's absences, refuses any other. |
| DataPlane.CostDataPlane.MarkAbsentIfMissing | src/fleet_graph/cost_obs/data_plane.py:253-265 | Marks exactly the lifecycles without a fact. |
| DataPlane.CostDataPlane.Samples | src/fleet_graph/cost_obs/data_plane.py:269-306 | The two dictionary-filling passes compute the merged facts followed by the presence lines of all orders in order. |
| DataPlane.CostDataPlane.Rehydrate | src/fleet_graph/cost_obs/data_plane.py:347-413 | The loop over the file's samples re-keys each by its metric, numbers the reviews afresh and turns zero presence into absence. |
| DataPlane.CostDataPlane.WriteExposition | src/fleet_graph/cost_obs/data_plane.py:332-345 | The text written is the rendered exposed samples. |
| DataPlane.CostDataPlane.RehydrateFromFile | src/fleet_graph/cost_obs/data_plane.py:415-429 | No file (None) answers False, a file that does not parse raises the parser's error, and both leave the plane as it was; any other file is rehydrated and answers True. |
| DataPlane.CostDataPlane.Reconcile | src/fleet_graph/cost_obs/data_plane.py:431-464 | The report holds each counted order's launch and settlement counts, and exact_once is false exactly when some order fails the two rules. |
| MergedView.Merged | src/fleet_graph/cost_obs/data_plane.py:308-322 | Each name and label set appears once, exactly if a fact has it, with the sum of its facts. |
| MergedView.MergingConserves | src/fleet_graph/cost_obs/data_plane.py:308-322 | The merged values add up to the values of the raw facts. |
| MergedView.PresenceExact | src/fleet_graph/cost_obs/data_plane.py:285-305 | For every order and lifecycle: the presence series is 1 exactly when a fact exists, 0 exactly when it is marked absent without a fact, and missing otherwise. |
| PlaneRuns.ExactOnce | src/fleet_graph/cost_obs/data_plane.py:100-172 | Over every run of emissions, marks, rehydrations of any samples and resumes, an order has at most one launch and one settlement, so the books are exact once if and only if every settled order has launched. |
| PlaneRuns.FiledOnce | src/fleet_graph/cost_obs/data_plane.py:431-453 | A plane whose facts are filed under their identities holds at most one launch, promotion and settlement an order. |
| PlaneShape.SameKey | src/fleet_graph/cost_obs/data_plane.py:127-197 | Facts filed under one key have one metric and, spend aside, one order, whatever the ids contain. |
| PlaneShape.RecordKeeps | src/fleet_graph/cost_obs/data_plane.py:100-172 | Emitting a lifecycle fact keeps the shape all later results rest on: keys fit facts, and the lifecycle table lists exactly the facts. |
| PlaneShape.SpendKeeps | src/fleet_graph/cost_obs/data_plane.py:174-241 | So does booking spend. |
| Resume.RebuiltHolds | src/fleet_graph/cost_obs/data_plane.py:347-413 | After a resume from any file, every key holds exactly the last line that comes back under it, reviews numbered in file order, and a key is known exactly if some line does: a later line replaces an earlier one and nothing else is lost. |
| Resume.OnceKnown | src/fleet_graph/cost_obs/data_plane.py:377-394 | A launch, promotion or settlement is known after a resume if and only if the file shows one of that order. |
| Resume.ReviewsKnown | src/fleet_graph/cost_obs/data_plane.py:395-403 | A review attempt is known if and only if it lies between 1 and the number of review lines of its order and phase. |
| Resume.SpendKnown | src/fleet_graph/cost_obs/data_plane.py:404-413 | Spend is known if and only if some spend line of its class comes back under that event id. |
| Resume.TablesAreRebuilt | src/fleet_graph/cost_obs/data_plane.py:371-403 | The fact and absence tables after a rehydration are exactly those the file's lines bear out. |
| Resume.RebuiltSamples | src/fleet_graph/cost_obs/data_plane.py:365-413 | The rehydrated facts are the file's facts in order if no line repeats the launch, promotion or settlement of an order or the spend of an order and attribution; otherwise there are strictly fewer. |
| Resume.RestoredCostKeyInjective | src/fleet_graph/cost_obs/data_plane.py:404-413 | Restored spend shares a key only with spend of the same order and attribution. |
| FixedPoint.ResumeFixedPoint | src/fleet_graph/cost_obs/data_plane.py:269-429 | For every plane fed by its own emitters: rendering, parsing, rehydrating a fresh plane and rendering again gives identical text if and only if every text it prints is clean, no lifecycle is booked on the order without a name, and the spend of each order and attribution has one label set. |
| FixedPoint.ReproducedIsClean | src/fleet_graph/cost_obs/data_plane.py:269-429 | In particular a value with a comma or an odd line break is never reproduced: the parse raises or the text changes. |
| FixedPoint.PresenceAfterResume | src/fleet_graph/cost_obs/data_plane.py:284-306 | After a resume the derived presence lines are unchanged, or strictly fewer if a lifecycle was booked on the order without a name. |
| FixedPoint.ResumedKeepsShape | src/fleet_graph/cost_obs/data_plane.py:347-413 | A plane resumed from a clean file again satisfies all that the fixed point asks of a plane, so resuming can go on. |
| OwnRuns.RunKeeps | src/fleet_graph/cost_obs/data_plane.py:100-265 | Every run of the plane's own operations, whatever their texts, with resumes where its texts survive the file, reaches only planes of that shape. |
| OwnRuns.CleanCallsAreOwnRun | src/fleet_graph/cost_obs/data_plane.py:100-265 | Calls with clean texts may be resumed anywhere. |
| OwnRuns.ResumeReproducesFile | src/fleet_graph/cost_obs/data_plane.py:269-429 | Hence, at every point of every such run, a resume reproduces the file under exactly those three conditions. |
| OwnRuns.ReplaysChangeNothing | src/fleet_graph/cost_obs/data_plane.py:347-403 | Once an order, named or not, has launched, been promoted or been settled, telling the plane so again answers False after any further run with any number of resumes; it leaves the plane unchanged if and only if the order still lists the lifecycle, which every named order does. |
| OwnRuns.SpendKnownAfterResume | src/fleet_graph/cost_obs/data_plane.py:353-413 | After a resume, spend, plain or failing, is recognized as a replay if and only if some spend of its class comes back under its event id. |
| OwnRuns.OrdinarySpendIsBookedTwice | src/fleet_graph/cost_obs/data_plane.py:404-413 | Every spend under another event id, booked and known, is booked a second time after a resume. |
| OwnRuns.ReviewKnownAfterResume | src/fleet_graph/cost_obs/data_plane.py:395-403 | After a resume, a review attempt is recognized as a replay if and only if it lies between 1 and the number of review lines of its order and phase. |
| OwnRuns.RestoredSpendStaysKnown | src/fleet_graph/cost_obs/data_plane.py:404-413 | Spend that a resume brought back is known under its restored event id for the rest of every run, through any further resumes. |
| OwnRuns.ManagementReplaysChangeNothing | src/fleet_graph/cost_obs/data_plane.py:404-413 | Management spend of a named order booked under management:<order> may be repeated at any later point of the run, resumed or not, and changes nothing. |
| OwnRuns.FailureSpendOverwrites | src/fleet_graph/cost_obs/data_plane.py:206-241 | After any run, a plain and a failure spend of one order and attribution, new to the plane and with any token counts, leave a file that a resume does not reproduce. |
| OwnRuns.NamelessOrderLosesPresence | src/fleet_graph/cost_obs/data_plane.py:377-403 | After any run, a settlement of the order with the empty name leaves a file that a resume does not reproduce. |
| Booking.BooksIsAnswered | src/fleet_graph/cost_obs/data_plane.py:174-241 | In every run of emissions a spend call answers True if and only if it is the first to spend under its event id and class, and the class exists. |
| Booking.PlainSpendIsShown | src/fleet_graph/cost_obs/data_plane.py:174-198 | What is booked is what is shown: after every run of emissions the plain spend series of an order and a class is exposed if and only if a call booked it, and its value is the sum of the tokens of the calls that answered True. |
| Booking.FailingSpendIsShown | src/fleet_graph/cost_obs/data_plane.py:206-241 | The same for failure spend, under its failure code and root cause. |
| Booking.LaunchShows | src/fleet_graph/cost_obs/data_plane.py:108-131 | A first launch is stored with value 1 and prints order, development, generation, seat and model each under its own name. |
| Booking.ReviewShows | src/fleet_graph/cost_obs/data_plane.py:133-150 | A first review of an attempt prints order, phase and verdict each under its own name. |
| Booking.PromotionShows | src/fleet_graph/cost_obs/data_plane.py:152-161 | A first promotion prints order, target and way each under its own name. |
| Booking.SettlementShows | src/fleet_graph/cost_obs/data_plane.py:163-172 | A first settlement prints its order and the status settled. |
| Lifecycles.PresenceIsReported | src/fleet_graph/cost_obs/data_plane.py:243-306 | Missing is told from reported: after every run of emissions an order's lifecycle shows 1 if and only if some call reported it, 0 if and only if it was accounted for, by name or with all that was missing then, and never reported, and nothing otherwise. |
| Lifecycles.TallyIsWhatHappened | src/fleet_graph/cost_obs/data_plane.py:431-464 | After every run of emissions an order counts one launch if any call launched it and one settlement if any call settled it, however often they were replayed. |
| Lifecycles.ExactIfLaunched | src/fleet_graph/cost_obs/data_plane.py:431-453 | Hence the books are exact once if and only if no order was settled that was never launched. |
| Lifecycles.SeriesInOrder | src/fleet_graph/cost_obs/data_plane.py:308-322 | The merged series come in the order in which their first fact was filed. |
| Lifecycles.PresenceOfOrderIs | src/fleet_graph/cost_obs/data_plane.py:284-305 | The presence lines of one order come as launch, review, promotion, settlement, fact before absence. |
| Verdict.NormalizeDecision | src/fleet_graph/bus/board.py:181-227 | The sequence of removals with its reassigned value and form computes the specification function, verdict, raw text and form. |
| Verdict.StripMarkdownQuote | src/fleet_graph/bus/board.py:114-139 | The flag loop: one quote prefix off every non-empty line, refusal of mixed quoting. |
| Verdict.NormalizeExact | src/fleet_graph/bus/board.py:181-227 | A text yields a verdict and a form if and only if it is that token in any ASCII case under at most one label, inside at most one inline or fenced code shell, inside at most one full Markdown quote, with ASCII padding between. |
| Verdict.NormalizeAgain | src/fleet_graph/bus/board.py:63-75 | Normalizing a normalized verdict gives the same verdict, bare. |
| Verdict.VerdictIsNormal | src/fleet_graph/bus/board.py:63-75 | A text is its own bare normal form if and only if it is one of the two upper-case tokens. |
| BusLog.DecisionFor | src/fleet_graph/bus/board.py:402-437 | Over three requests between which the channel may grow, the answer is the newest decision referencing the question that the reference read could see and that is within 1000 of the head read, and None exactly when there is none. |
| BusLog.NewestAnswerIs | src/fleet_graph/bus/board.py:420-427 | What the newest answer is: one of the answers, none of them later, and None exactly when there are none. |
| BusLog.AnswersInWindow | src/fleet_graph/bus/board.py:413-419 | Every answer within 1000 of the head that was read is in the tail window, however many messages arrive in between. |
| BusLog.OldDecisionIsMissed | src/fleet_graph/bus/board.py:413-427 | Of a decision and a later message, the lookup misses the decision if and only if the head is 1000 or more further on, a decision at 1 and a head at 1001 for one. |
| BusLog.ReadFullChannel | src/fleet_graph/arbiter/a2.py:330-367 | A read that returns holds the whole channel as of its last page, and stops at the first page that can; the only refusal is too many pages, and then every page fell behind. |
| BusLog.CompleteReadIsUnique | src/fleet_graph/arbiter/a2.py:350-367 | The page at which a read completes is determined by the views, and its result extends what any earlier page saw. |
| BusLog.QuietChannelPages | src/fleet_graph/arbiter/a2.py:350-367 | A channel of n messages that stands still is read in exactly ceiling(n / page size) pages, one if empty. |
| BusLog.PageSkipsNone | src/fleet_graph/arbiter/a2.py:350-367 | A page past a sequence number is the oldest messages beyond it: a message it leaves out is later than a full page. |
| BusLog.AnswersAre | src/fleet_graph/bus/board.py:420-427 | Decisions of both versions that reference the question past the window's start answer it, and nothing else does. |
| Subjects.ReadCardHeads | src/fleet_graph/arbiter/a2.py:370-379 | The dictionary loop keeps, per entity in order of first appearance, the card with the greatest sequence number. |
| Subjects.HeadIsNewest | src/fleet_graph/arbiter/a2.py:370-379 | On a channel that is the entity's last card, there exactly if it has one, one entry an entity. |
| Subjects.CollectSubjects | src/fleet_graph/arbiter/a2.py:390-461 | Three whole reads and the gate lookups compute the open questions, blocked cards and consultations in order; any read that cannot finish refuses the tick. |
| Subjects.QuestionIsCollected | src/fleet_graph/arbiter/a2.py:405-427 | A question note is a subject if and only if every decision referencing it that its lookup could see lies 1000 or more behind the head read. |
| Subjects.BlockedIsNewest | src/fleet_graph/arbiter/a2.py:429-442 | A card is a subject if and only if the newest card of its entity has a blocking status. |
| Subjects.ConsultationsAre | src/fleet_graph/arbiter/a2.py:444-459 | The consultations are exactly the inbox messages that mention the arbiter. |
| Subjects.SubjectsAreAllThree | src/fleet_graph/arbiter/a2.py:390-461 | A tick's subjects are exactly the open questions, the entities whose last card waits and the mentions of the arbiter, each with its own id and card. |
| Subjects.SubjectsByKind | src/fleet_graph/arbiter/a2.py:403-461 | They come in this order: questions, waiting cards, consultations. |
| Arbiter.NotesBoard.RunArbiter | src/fleet_graph/arbiter/a2.py:570-637 | Both channels are read whole while others append, or the tick is refused and writes nothing; then the subject loop with its sets and run record computes the tick over the entities so seen, publishing or dry, with failing reasoners and failing publishes refused one by one. |
| Arbiter.BoardEntitiesAre | src/fleet_graph/arbiter/a2.py:485-498 | The known entities are exactly the non-empty entities of the messages read. |
| Arbiter.NotesBoard.Publish | src/fleet_graph/arbiter/publisher.py:27-50 | The stored note references the card and the non-empty subjects other than the card, and other note types are refused. |
| Arbiter.CollectRefs | src/fleet_graph/arbiter/a2.py:501-525 | The ref loop keeps the subject and the evidence that names board entities, once each, without the card. |
| Arbiter.AlreadyReferenced | src/fleet_graph/arbiter/a2.py:467-482 | True exactly when a marked note among those read references the subject. |
| Arbiter.NoteTargets | src/fleet_graph/arbiter/a2.py:501-525 | A published note references its subject, whatever the recommendation names. |
| Arbiter.NoteIsMarked | src/fleet_graph/arbiter/a2.py:545-564 | Every rendered note starts with the marker suppression looks for. |
| Arbiter.NotedIsSuppressed | src/fleet_graph/arbiter/a2.py:467-482 | Once a marked note on a subject is on the log, every later tick that reads it suppresses the subject. |
| Arbiter.NotedIsNeverEmitted | src/fleet_graph/arbiter/a2.py:595-637 | Such a subject is never among what a later tick emits, of whatever kind it is. |
| Arbiter.TickIsSound | src/fleet_graph/arbiter/a2.py:570-637 | One tick, among other traffic, notes no subject twice and none that was noted before. |
| Arbiter.AtMostOneNote | src/fleet_graph/arbiter/a2.py:570-637 | Over any sequence of ticks and other traffic each named subject gets at most one note. |
| Arbiter.TickComesTo | src/fleet_graph/arbiter/a2.py:586-637 | What a whole tick comes to, read off its work list: each entry is skipped, declined, rehearsed, published, not stored or stored unheard by rules that look at the start of the channel, earlier entries of its subject, the reply and the publish; channel, notes, emitted, suppressed and refused are exactly those of these fates, in order. |
| Arbiter.DryTickWritesNothing | src/fleet_graph/arbiter/a2.py:578-637 | A tick that does not publish notes nothing, leaves on the channel only what others post, in order, and marks everything it emits as dry. |
| Arbiter.DeliveredIsEmitted | src/fleet_graph/arbiter/a2.py:595-637 | A subject not noted before, at its first entry, with a recommendation and a delivered publish is emitted exactly once and its note stands on the channel with its card, text, type and subject. |
| Arbiter.NoteHeadSays | src/fleet_graph/arbiter/a2.py:545-552 | A note's first lines name its subject, its target or none, and its recommendation. |
| Arbiter.NoteIsLines | src/fleet_graph/arbiter/a2.py:545-564 | A note is its marker and its lines, one under the other. |
| Arbiter.NoteAsksForEvidence | src/fleet_graph/arbiter/a2.py:553-557 | For missing evidence the fourth line says what is missing. |
| Arbiter.NoteTailSays | src/fleet_graph/arbiter/a2.py:560-563 | Its last lines name the consequence and the evidence, where there are any. |
| Arbiter.EvidenceIsListed | src/fleet_graph/arbiter/a2.py:562-563 | The evidence is listed in order, a comma and a blank between two. |
| Inbox.Consume | src/fleet_graph/bus/inbox.py:187-227 | The drain is the ackable deliveries in bus order; 403, other failures and a missing array are told apart. |
| Inbox.InboxProcess.Ack | src/fleet_graph/bus/inbox.py:229-239 | One ack request: acked, lease lost on 409, error otherwise. |
| Inbox.InboxProcess.DrainThenAck | src/fleet_graph/bus/inbox.py:241-252 | Nothing is acked unless persisting returned; then all are, in order, one outcome each, whatever the others answer. |
| Inbox.DrainedInOrder | src/fleet_graph/bus/inbox.py:208-227 | The k-th message drained is the k-th ackable delivery. |
| Inbox.AllAckableDrained | src/fleet_graph/bus/inbox.py:208-227 | No ackable delivery is left out. |
| Inbox.PerformKeeps | src/fleet_graph/bus/inbox.py:241-252 | On a bus that settles whatever it is sent an ack for, wherever the process stops among effects that persist before they ack, with acks lost, leases expiring and others consuming in between, what is acknowledged is durable. |
| Inbox.EffectsInOrder | src/fleet_graph/bus/inbox.py:241-252 | The effects DrainThenAck leaves after any consume are of that kind. |
| Inbox.AckedIsDurable | src/fleet_graph/bus/inbox.py:241-252 | Over every sequence of lives of the process, each consuming and stopping anywhere among the effects of DrainThenAck, an acknowledged message is durable. |
| Inbox.RoundSettles | src/fleet_graph/bus/inbox.py:187-252 | A life of the process in which nothing goes wrong acknowledges exactly the messages with an id among the first max ready ones, and leaves ready exactly the ready ones beyond them. |
| Inbox.UnackedIsDelivered | src/fleet_graph/bus/inbox.py:187-252 | From every reachable state, a message with an id that no ack has settled is acknowledged, and durable, once its lease has run out and at most i / max + 1 further rounds of any fixed size max have passed, i being its place on the bus. |
| Inbox.OutcomesAre | src/fleet_graph/bus/inbox.py:229-239 | Acked without an error, lease lost for 409 and only for it, an error for every other status. |
| Inbox.AckTakesEffect | src/fleet_graph/bus/inbox.py:229-239 | On the bus as modelled an acknowledgement settles exactly the delivery it names, and only under the lease it carries. |
| Inbox.AckIsFinal | src/fleet_graph/bus/inbox.py:187-252 | An acknowledged message stays as it is over every sequence of lives: no expiry and no other consumer brings it back. |
| LineRegistration.LineHost.PrepareLine | src/fleet_graph/bus/line_registration.py:83-175 | The undisturbed call on files and bus is the composition of the protocol's steps, with the same error codes; created_agent says that the bus made and confirmed a registration, created_alias that the alias was bound. |
| LineRegistration.LineHost.ObtainToken | src/fleet_graph/bus/line_registration.py:120-154 | Own file, bus directory by agent then by alias, or one registration and the file it leaves. |
| LineRegistration.LineHost.UseToken | src/fleet_graph/bus/line_registration.py:155-175 | Verification before the write, the write before the bind, the bind only for an unowned alias, the owner asked again at the end. |
| LineRegistration.StepInv | src/fleet_graph/bus/line_registration.py:116-175 | Every step, a crash and any step of others included, keeps: the token in hand is the one on file, and from verification on it is the owner's own. |
| LineRegistration.EveryStepIsSafe | src/fleet_graph/bus/line_registration.py:116-175 | At any point of any run, this code binds an alias only when it is unbound and its owner's own unprivileged token is durable, never replaces a token file by another credential, and reports READY only when alias and token name the same unprivileged agent. |
| LineRegistration.TokenFileIsKept | src/fleet_graph/bus/line_registration.py:121-158 | A token file keeps its credential for the rest of every run. |
| LineRegistration.CallIsReady | src/fleet_graph/bus/line_registration.py:116-175 | An undisturbed call ends READY if and only if the first file there is, the line's own, the agent's or the alias's, holds the owner's own unprivileged token, or nobody owns the alias, there is no file, and the bus registers the agent now and hands its token over. |
| LineRegistration.RetryAfterLostRegistration | src/fleet_graph/bus/line_registration.py:128-158 | After a crash between registration and write the retry ends READY if and only if the bus had left the token in its directory. |
| LineRegistration.TokenIsOfFirstFile | src/fleet_graph/bus/line_registration.py:120-127 | With a file at hand the token is exactly its credential: the line's own file, else the agent's in the bus directory whatever the alias's holds, else the alias's. |
| LineRegistration.TokenIsOfRegistration | src/fleet_graph/bus/line_registration.py:128-154 | Without a file only an alias nobody owns gets to a registration, and each answer of the bus leads to its own token or error code. |
| LineRegistration.TokenDecides | src/fleet_graph/bus/line_registration.py:70-80 | A token nobody knows, another agent's and a privileged one are refused with their codes and change nothing; the agent's own is written and the alias bound. |
| LineRegistration.OwnerConfirms | src/fleet_graph/bus/line_registration.py:173-175 | The last answer: READY for the line's own agent, and otherwise what is wrong with the owner. |
| LineRegistration.WriteAndBindLeave | src/fleet_graph/bus/line_registration.py:156-172 | What a write and a binding leave behind whatever becomes of their answers: the file unless the write failed before it was put in place, the alias unless it was owned, not free at the start, or the request was lost on the way. |
| LineRegistration.RegistrationLeaves | src/fleet_graph/bus/line_registration.py:128-154 | On the bus as modelled a registration adds the agent and its token, and its file if the bus keeps one, unless the agent is there, no token is issued or the token is another's. |
| LineRegistration.LostRequestsEndTheCall | src/fleet_graph/bus/line_registration.py:116-183 | A request without an answer and a failed write end the call with their codes, wherever they happen. |
| LineRegistration.UnsafeOwnerIsRefused | src/fleet_graph/bus/line_registration.py:57-67 | An owner whose name is not safe ends the call before anything is read or written. |
| LineRegistration.SafeNamesAre | src/fleet_graph/bus/line_registration.py:18-18 | The safe names, letter by letter: ASCII letters, digits, '_' and '-', and the dot after the first. |
| RateHeader.ReportClaimLines | src/fleet_graph/research_anchor.py:44-62 | The filtering loop keeps the stripped lines that are neither blank, heading, header nor rule. |
| RateHeader.WithRateHeader | src/fleet_graph/research_anchor.py:136-147 | Replaces a header in the first line, rejoining with line feeds, or puts one on top. |
| RateHeader.HeaderKeepsClaims | src/fleet_graph/research_anchor.py:44-62 | Writing a header never changes the claim lines, for any report. |
| RateHeader.LastHeaderWins | src/fleet_graph/research_anchor.py:136-147 | Two headers leave what the last alone leaves if and only if the report had a header or has no break but line feeds. |
| RateHeader.SecondHeaderRewrites | src/fleet_graph/research_anchor.py:136-147 | The input that shows it: a report of two lines parted by a vertical tab. |
| RateHeader.Rejoining | src/fleet_graph/research_anchor.py:142-146 | Splitting into lines and rejoining gives the text back exactly when its only break is the line feed. |
| RateHeader.ClaimLineIs | src/fleet_graph/research_anchor.py:44-62 | A line gives its core as a claim if and only if the core is not empty, no heading, no rate header and no rule of three or more dashes, stars and underscores. |
| RateHeader.HeaderIsFirst | src/fleet_graph/research_anchor.py:143-145 | A report has the header if and only if it begins, blanks aside, with the header's mark. |
| RateHeader.HeadedLines | src/fleet_graph/research_anchor.py:136-147 | The lines of a headed report are the new header and the report's other lines; only an empty last line can get lost. |
| RateHeader.ReadTextIs | src/fleet_graph/research_anchor.py:157-160 | Files are read with universal newlines: every return, with or without its line feed, reads as a line feed. |
| Anchor.RefsOfCited | src/fleet_graph/research_anchor.py:36-41 | From a text written with references, extraction gives back exactly those references in order. |
| Anchor.CheckAnchors | src/fleet_graph/research_anchor.py:90-128 | The loops over lines, references and evidence compute claims and summary, the last evidence of an anchor winning. |
| Anchor.ResearchRun.CheckRun | src/fleet_graph/research_anchor.py:150-167 | Writes the check and the headed report, or nothing at all without a report. |
| Anchor.ResearchRun.JudgeRun | src/fleet_graph/research_anchor.py:170-212 | Green exactly when the filed rate is above nine tenths, the filed sums are declared and really add up, and the report has its header. |
| Anchor.ClaimsTally | src/fleet_graph/research_anchor.py:99-127 | ok + failed + unanchored = total = the sum over claim lines of max(1, references), ok being the references the evidence knows and unanchored the bare lines. |
| Anchor.HeadedHasHeader | src/fleet_graph/research_anchor.py:136-147 | A headed report has its header in the first line, whatever it was before. |
| Anchor.FreshCheckIsJudgedByItsClaims | src/fleet_graph/research_anchor.py:150-212 | Judging a fresh check is green if and only if 10 times the known references exceeds 9 times the total. |
| Anchor.SecondCheckChangesNothing | src/fleet_graph/research_anchor.py:150-167 | A second check finds the same and leaves the report alone if and only if it had a header or has no break but line feeds. |
| Anchor.EmptyRefIsSkipped | src/fleet_graph/research_anchor.py:34-41 | A reference without a text is none, and what follows is searched on. |
| Anchor.UnclosedRefIsNone | src/fleet_graph/research_anchor.py:34-41 | A reference that is never closed is none. |
| Anchor.QuoteForIsLast | src/fleet_graph/research_anchor.py:99-104 | A reference is known by the last evidence filed under it, and the empty one never. |
| Anchor.ClaimsOfLine | src/fleet_graph/research_anchor.py:100-114 | The claims of a line: one without an anchor, or one for each reference in order with the line, its quote and its finding. |
| Anchor.ClaimsParts | src/fleet_graph/research_anchor.py:99-114 | The claims of a report are those of its lines, one after the other. |
| Anchor.FiledReportSays | src/fleet_graph/research_anchor.py:150-167 | The first line of a checked report is the rate of its own claims. |
| Anchor.GreenNeedsAll | src/fleet_graph/research_anchor.py:170-212 | Green if and only if there is a check, its rate is above nine tenths, its sums are declared and add up, and the report begins with the header. |
| WorkReport.DecodeReport | src/fleet_graph/work_report.py:380-415 | Object or text to the very object, or to the first failure; text goes through the fence and, if it does not parse, the last embedded report. |
| WorkReport.DecodeObject | src/fleet_graph/work_report.py:389-415 | Hands back the object unchanged, prose included, or the kind of the first failure in the order of the checks. |
| WorkReport.AcceptedIsReport | src/fleet_graph/work_report.py:170-415 | An object is accepted if and only if every bound, enum, path, exit code and blocker rule holds. |
| WorkReport.Files | src/fleet_graph/work_report.py:216-250 | The entry loop stops at the first bad file and otherwise copies them. |
| WorkReport.SelfTests | src/fleet_graph/work_report.py:253-303 | The same for self tests, booleans and negative exit codes refused. |
| WorkReport.Blocker | src/fleet_graph/work_report.py:306-338 | Null for completed, required for blocked, free for failed. |
| WorkReport.RaisesTypeError | src/fleet_graph/work_report.py:216-377 | A TypeError instead of a protocol error comes out if and only if all earlier checks pass and a change or the media type is a list or an object. |
| WorkReport.ListAsChangeRaises | src/fleet_graph/work_report.py:216-250 | Any acceptable report, its files replaced by one good path with a list as change, raises it. |
| WorkReport.ProseIsNoControl | src/fleet_graph/work_report.py:418-434 | Two accepted reports have the same control slice if and only if they differ in prose at most, and dropping the prose leaves a report. |
| WorkReport.LastReportIsLast | src/fleet_graph/work_report.py:120-132 | The embedded report is the object at the last head where one decodes. |
| WorkReport.FenceIsTransparent | src/fleet_graph/work_report.py:97-109 | Taking off a fence gives the body back if and only if its only line breaks are line feeds. |
| WorkReport.FenceRewrites | src/fleet_graph/work_report.py:97-109 | The input that shows it: a body of two lines parted by a vertical tab. |
| WorkReport.TextIsDecoded | src/fleet_graph/work_report.py:150-166 | What a text decodes to: the object its unfenced text loads as; Malformed if that is another value; if it does not load, the last object that stands at a head behind which no other does, and loads' own error if and only if there is none. |
| WorkReport.OthersAreTaken | src/fleet_graph/work_report.py:150-167 | An object decodes as itself, and what is neither object nor text is Malformed. |
| WorkReport.LastStandsOrNone | src/fleet_graph/work_report.py:120-132 | The embedded report is the one at the last head at which an object stands, and none if and only if none stands anywhere. |
| WorkReport.MissingIsFirst | src/fleet_graph/work_report.py:380-415 | The kind missing comes out if and only if some required field is absent and all fields checked before it are sound. |
| ReportShape.FileIs | src/fleet_graph/work_report.py:225-249 | A file is an object of a relative path that says something and of one of four words, and nothing else. |
| ReportShape.SelfTestIs | src/fleet_graph/work_report.py:262-302 | A self test is an object of a command of 1 to 256 texts and an integer exit code not below zero. |
| ReportShape.BlockerByOutcome | src/fleet_graph/work_report.py:306-338 | A completed report names no blocker, a blocked one must, a failed one may. |
| ReportShape.AttachmentIs | src/fleet_graph/work_report.py:341-377 | An attachment is an object of one of two media types and a content of at most 200000 characters. |
| ReportShape.ListsAre | src/fleet_graph/work_report.py:192-303 | Up to 1024 things done, 4096 files and 1024 self tests. |
| ReportShape.ReportIs | src/fleet_graph/work_report.py:24-82 | A report has the eight required fields, may have the attachment and has nothing else, each field as stated. |
| ReportShape.FenceComesOff | src/fleet_graph/work_report.py:97-109 | Of a fenced text exactly the lines between the first and the last remain, be there none. |
| ReportShape.NoFenceStays | src/fleet_graph/work_report.py:97-109 | A text without a fence, or without a closing one on a line of its own, is left as it is. |
| Timeouts.BucketRows | scripts/turn-timeout-report.py:196-272 | The record loop over nested dictionaries: buckets, missing rows and counts by missing field, and the TypeError for a list or an object as key. |
| Timeouts.BucketIsItsRecords | scripts/turn-timeout-report.py:217-247 | A bucket exists exactly for the keys of complete timeout records, one a key, counts exactly its records and shows the first seat and model they name. |
| Timeouts.EveryTimeoutIsCountedOnce | scripts/turn-timeout-report.py:257-272 | Buckets and missing rows together count every timeout round once, and hang + ceiling + unclassified = rounds. |
| Timeouts.BuildReport | scripts/turn-timeout-report.py:425-485 | The file loop collects sources, rows, missing rows, totals and the counts by missing field over all files, unreadable files adding an error row only. |
| Timeouts.MergeCounts | scripts/turn-timeout-report.py:461-462 | Merging one file's counts by field into the total counts the rows of both. |
| Timeouts.WholeReportCountsOnce | scripts/turn-timeout-report.py:425-485 | The shown rows add up to the totals, which count every timeout record of every readable file once. |
| Timeouts.LineSection | scripts/turn-timeout-report.py:425-485 | The same for the script's own list of variables. |
| Timeouts.ListAsSessionRaises | scripts/turn-timeout-report.py:217-227 | Any complete timeout record, its session replaced by a list, fails the report. |
| TimeoutAccounts.TallyIs | scripts/turn-timeout-report.py:135-193 | Every counter of the report, of a bucket and of the rows of missing variables is the number of records that say so in their own fields: hangs those with true_hang, ceiling hits those with ceiling_hit, zero outputs those whose evidence says so. |
| TimeoutAccounts.RowOfOne | scripts/turn-timeout-report.py:205-220 | A timeout that lacks a variable gives one row with its round, its absent variables, its output and its class; every other record gives none. |
| TimeoutAccounts.RowsParts | scripts/turn-timeout-report.py:205-220 | The rows of missing variables come record by record, in order. |
| TimeoutAccounts.FirstSeenIs | scripts/turn-timeout-report.py:179-183 | The seat and model a bucket shows are the first that are not null. |
| TimeoutAccounts.RaisesIs | scripts/turn-timeout-report.py:221-240 | The TypeError, in the record's own fields: a complete timeout with a list or an object for one of the three key fields. |
| TimeoutAccounts.RowsAreOrdered | scripts/turn-timeout-report.py:249-257 | A file's rows are its buckets, ordered by source, session, ordinal and age as texts. |
| TimeoutAccounts.ReportIsOrdered | scripts/turn-timeout-report.py:471-478 | So are the rows of the whole report. |
| TimeoutAccounts.SourcesAre | scripts/turn-timeout-report.py:439-458 | Each source's line: records, timeouts and lines that were none, or that it could not be read. |
| TimeoutAccounts.GatheredAre | scripts/turn-timeout-report.py:459-463 | Each readable file adds its rows, and its rows of missing variables under its own path, in order. |
| DdSection.DdSection | scripts/turn-timeout-report.py:292-422 | The event loops give per file and in total the failures, those in and out of the fence, and the bucket counts. |
| DdSection.BackfillIsLatest | scripts/turn-timeout-report.py:333-381 | Stable sort, filter and last element find the latest re_prepare not after the failure, the later in the file of two with one time. |
| DdSection.LatestIsGreatest | scripts/turn-timeout-report.py:377-381 | That event is not after the failure, and no other one not after it is later; it is missing exactly when all are after it. |
| DdSection.EveryFailureIsPlacedOnce | scripts/turn-timeout-report.py:358-417 | In-fence plus out-of-fence is all failures, the buckets add up to in-fence, and each counts exactly the failures placed in it. |
| DdSection.PlaceIs | scripts/turn-timeout-report.py:371-386 | A failure keeps the development and the generation it names, and takes what it does not name from the latest re_prepare not after it, if it has a time and there is one. |
| DdSection.DimensionsAre | scripts/turn-timeout-report.py:283-289 | A development is a text that says something other than unavailable, a generation an integer. |
| DdSection.EventsAre | scripts/turn-timeout-report.py:338-370 | Failures by their code, the fence by its stage, re_prepares in the fence that have a time. |
| DdSection.SourcesAre | scripts/turn-timeout-report.py:311-406 | Each source's line counts its failures, those in the fence, those outside and its re_prepares. |
| DdSection.TotalsAre | scripts/turn-timeout-report.py:308-406 | The totals are the sums over all files that could be read. |
| Guard.DecisionPublishScan.Visit | scripts/check_supervisor_conformance.py:221-256 | The stack-keeping visit restores the stack and appends exactly the reports of the calls below, in order. |
| Guard.DecisionPublishScan.VisitFunctionDef | scripts/check_supervisor_conformance.py:234-242 | Pushes the name, visits, pops. |
| Guard.DecisionPublishScan.VisitCall | scripts/check_supervisor_conformance.py:244-256 | Reports the call unless exempt, then goes into it. |
| Guard.CheckModule | scripts/check_supervisor_conformance.py:398-402 | The sanctioned publisher is not scanned, every other module is. |
| Guard.SitesAreExactlyTheCalls | scripts/check_supervisor_conformance.py:231-256 | The scan looks at every call of the tree exactly once, from the outside in and from left to right, with exactly the functions on the path to it. |
| Guard.ScanReportsOffences | scripts/check_supervisor_conformance.py:213-256 | A line is reported if and only if a call on it carries a decision reference as a direct argument and no function on its path is exempt. |
| Guard.ReportsOfOne | scripts/check_supervisor_conformance.py:244-256 | A call is reported on its own line once for each argument and keyword that refers to a decision. |
| Guard.GuardReferences | scripts/check_supervisor_conformance.py:213-218 | What guard B takes for a decision: the two kinds as texts and the two names of their constants. |
| Guard.GuardExempts | scripts/check_supervisor_conformance.py:231-232 | The one module and function where guard B lets a decision be published. |
| Guard.EnclosingIs | scripts/check_supervisor_conformance.py:234-242 | The functions around a node are those on its path, outermost first. |
| Syntax.WalkNodes | scripts/check_supervisor_conformance.py:298-298 | The queue loop visits the nodes breadth first. |
| Syntax.WalkIsWithin | scripts/check_supervisor_conformance.py:295-309 | The walk meets exactly the nodes of the tree. |
| Syntax.WalkIsByLevels | scripts/check_supervisor_conformance.py:298-298 | The walk goes level by level: whatever waits comes first, then the children of all of it. |
| Syntax.ChildrenAre | scripts/check_supervisor_conformance.py:298-298 | The children of a node are the nodes right inside it, whatever field they stand in. |
| Syntax.QueuedCounts | scripts/check_supervisor_conformance.py:298-298 | The walk is as long as the tree is big: no node is left out or met twice. |
| Gating.CalledNames | scripts/check_supervisor_conformance.py:295-309 | Every name and attribute called, with the plain name before an attribute's dot. |
| Gating.CheckWriteGating | scripts/check_supervisor_conformance.py:312-358 | The two passes compute the diagnostics of the functions in walk order and of the module. |
| Gating.CleanMeansGated | scripts/check_supervisor_conformance.py:329-358 | No diagnostic if and only if every function calling a write primitive anywhere in its subtree calls the gate in its subtree, and the module does too. |
| Gating.DiagnosticsNameTheFunctions | scripts/check_supervisor_conformance.py:331-349 | A function's diagnostic appears exactly when that function writes ungated, with its line, name and writes. |
| Gating.ModuleDiagnostic | scripts/check_supervisor_conformance.py:351-357 | The module diagnostic with given writes appears if and only if those are the primitives called in the tree, there are some, and no gate is called anywhere. |
| Gating.ModuleIsLast | scripts/check_supervisor_conformance.py:331-358 | The functions' diagnostics come first, at most one a node, and the module's last. |
| Gating.VerdictsParts | scripts/check_supervisor_conformance.py:331-349 | The functions' diagnostics come node by node, in order of the walk. |
| Gating.NamesOfIs | scripts/check_supervisor_conformance.py:299-308 | What a call is known by: its plain name, or its attribute and the plain name before the dot. |
| Gating.ModuleScopeWriteIsReported | scripts/check_supervisor_conformance.py:321-357 | A tree with a primitive called outside every function gets the module diagnostic if and only if no gate is called anywhere, inside a function or not. |
| Gating.ModuleScopeWriteCanPass | scripts/check_supervisor_conformance.py:321-357 | The tree that shows it: a write at module scope beside a function that calls the gate is not reported. |
| Gating.DottedPrimitiveIsNeverSeen | scripts/check_supervisor_conformance.py:114-146 | A primitive spelled with a dot matches no call of any tree of Python identifiers. |

## Left out

- Exposition values: integers only, so a value text is an optional sign and digits; other float syntax and rounding are not modelled.
- Cost data plane: file names, directories and the atomic rename of the scrape file, and the evaluation of recording rules; what a plane resumed from a file with unclean values goes on to do (the file is not reproduced, but the rebuilt plane is not followed further).
- Verdict label: matched over ASCII letters; the few other letters that fold onto them are not modelled. A decision field that is not a text is not represented.
- Bus: HTTP, authentication and idempotency keys; a publish is stored, not stored, or stored with the answer lost, and a channel's sequence numbers ascend and its ids are unique.
- Subjects.CollectSubjects: the facts and the source revision a subject carries to the reasoning role are not modelled, and whether a body mentions the arbiter is an arbitrary predicate.
- Arbiter: the reasoning role's answer is an input and may refuse; a tick's subjects are collected before it and given to it; one arbiter runs at a time, and concurrent ticks are not modelled.
- Inbox: what a message says (`as_message` and its coercions) is opaque; the bus hands out ready deliveries oldest first, and persisting is one step that adds the drained messages to what is durable.
- LineRegistration.LineHost.PrepareLine: path and symbolic-link checks, file locking and flushing are not modelled; the lock makes calls of one alias exclusive, temp-write plus rename is one step, and a token once known to the bus keeps its identity.
- Anchor.ResearchRun.CheckRun: deriving evidence from files and formatting the rate to three decimals are inputs; the rate is an exact quotient, which agrees with the float comparison for any total a file can hold.
- WorkReport.DecodeReport: json.loads, with the message of its error, and raw_decode are arbitrary functions; error details are not modelled, only kinds. JSON's NaN and infinities are not represented.
- Timeouts: reading lines as JSON is an input, the records and how many lines failed; the text of a key field, used for row order only, is an arbitrary function.
- DdSection.DdSection: the times and details listed in a bucket, the table of re_prepare events, the display order and the endpoint pattern (an arbitrary function of the detail) are not modelled.
- Guard: how Python text becomes a tree, and the import guards A and C, which are membership tests over the same walk.
- Everything else in the repository (graphs, scheduler, servers, acceptance drills) is outside this model.
