/** The dd side of the timeout report (scripts/turn-timeout-report.py): provider failures inside the
    implement fence, by development, generation and endpoint, back-filled from re_prepare events. */
module DdSection {
  import opened Dict
  import opened Json
  import opened Sorting
  import opened Text

  const DD_FAILURE_CODE := "PROVIDER_UNAVAILABLE"
  const DD_FENCE_STAGE := "implement"
  const DD_UNAVAILABLE := "\U{4e0d}\U{53ef}\U{5f97}"

  type Event = Object

  predicate IsFailure(e: Event) { Field(e, "failure_code") == Json.Text(DD_FAILURE_CODE) }

  predicate InFence(e: Event) { Field(e, "stage") == Json.Text(DD_FENCE_STAGE) }

  predicate IsPrep(e: Event)
  {
    Field(e, "event") == Json.Text("re_prepare") && InFence(e) && Field(e, "at").Text?
  }

  function At(e: Event): string { if Field(e, "at").Text? then Field(e, "at").text else "" }

  /** A development name; None is what the report shows as unavailable, whether it was missing,
      blank, not a text, or that very word. */
  function Development(e: Event): Option<string>
  {
    match Field(e, "development_id")
    case Text(text) => if Strip(text) != "" && text != DD_UNAVAILABLE then Some(text) else None
    case _ => None
  }

  function Generation(e: Event): Option<int>
  {
    match Field(e, "generation")
    case Int(number) => Some(number)
    case _ => None
  }

  // ----- the latest re_prepare ----------------------------------------------

  function EarlierEvent(): (Event, Event) -> bool { (a, b) => StrLe(At(a), At(b)) }

  function Preps(events: seq<Event>): seq<Event>
  {
    if events == [] then []
    else Preps(events[..|events| - 1]) + if IsPrep(events[|events| - 1]) then [events[|events| - 1]] else []
  }

  /** The last of the sorted events that is not after at. */
  function LastUpTo(sorted: seq<Event>, at: string): Option<Event>
  {
    if sorted == [] then None
    else if StrLe(At(sorted[|sorted| - 1]), at) then Some(sorted[|sorted| - 1])
    else LastUpTo(sorted[..|sorted| - 1], at)
  }

  /** The re_prepare with the greatest time not after at; of several with that time the one that
      comes last in the file. */
  function LatestPrep(events: seq<Event>, at: string): Option<Event>
  {
    if events == [] then None
    else
      var before, e := LatestPrep(events[..|events| - 1], at), events[|events| - 1];
      if IsPrep(e) && StrLe(At(e), at) && (before.None? || StrLe(At(before.value), At(e))) then Some(e) else before
  }

  predicate Ascending(s: seq<Event>) { forall i, j :: 0 <= i < j < |s| ==> StrLe(At(s[i]), At(s[j])) }

  lemma {:induction false} SortedAscends(s: seq<Event>)
    ensures Ascending(SortBy(EarlierEvent(), s))
  {
    forall a: Event, b: Event ensures EarlierEvent()(a, b) || EarlierEvent()(b, a) { StrLeTotal(At(a), At(b)); }
    forall a: Event, b: Event, c: Event | EarlierEvent()(a, b) && EarlierEvent()(b, c) ensures EarlierEvent()(a, c) {
      StrLeTransitive(At(a), At(b), At(c));
    }
    SortBySorted(EarlierEvent(), s);
    var r := SortBy(EarlierEvent(), s);
    assert forall i, j :: 0 <= i < j < |r| ==> EarlierEvent()(r[i], r[j]);
  }

  /** Where the last event up to at lies after an insertion. */
  lemma {:induction false} LastUpToInserted(x: Event, s: seq<Event>, at: string)
    requires Ascending(s)
    ensures LastUpTo(InsertBy(EarlierEvent(), x, s), at)
      == if StrLe(At(x), at) && (LastUpTo(s, at).None? || StrLe(At(LastUpTo(s, at).value), At(x))) then Some(x) else LastUpTo(s, at)
  {
    if s == [] {
      assert [x][..0] == [];
    } else {
      var front, last := s[..|s| - 1], s[|s| - 1];
      assert Ascending(front);
      if StrLe(At(last), At(x)) {
        assert (s + [x])[..|s|] == s;
        if StrLe(At(x), at) { LastUpToBelow(s, At(x), at); }
      } else {
        var inserted := InsertBy(EarlierEvent(), x, front);
        assert (inserted + [last])[..|inserted|] == inserted;
        LastUpToInserted(x, front, at);
        StrLeTotal(At(x), At(last));
        if StrLe(At(last), at) { StrLeTransitive(At(x), At(last), at); }
      }
    }
  }

  lemma {:induction false} LastUpToBelow(s: seq<Event>, bound: string, at: string)
    requires Ascending(s) && (s != [] ==> StrLe(At(s[|s| - 1]), bound))
    ensures LastUpTo(s, at).Some? ==> StrLe(At(LastUpTo(s, at).value), bound)
  {
    if s != [] && !StrLe(At(s[|s| - 1]), at) {
      var front := s[..|s| - 1];
      if front != [] {
        assert StrLe(At(s[|s| - 2]), At(s[|s| - 1]));
        StrLeTransitive(At(s[|s| - 2]), At(s[|s| - 1]), bound);
      }
      LastUpToBelow(front, bound, at);
    }
  }

  /** Sorting the re_prepare events and taking the last one not after the failure finds the latest. */
  lemma {:induction false} BackfillIsLatest(events: seq<Event>, at: string)
    ensures LastUpTo(SortBy(EarlierEvent(), Preps(events)), at) == LatestPrep(events, at)
  {
    if events != [] {
      var front, e := events[..|events| - 1], events[|events| - 1];
      BackfillIsLatest(front, at);
      if IsPrep(e) {
        var preps := Preps(front);
        assert (preps + [e])[..|preps|] == preps;
        SortedAscends(preps);
        LastUpToInserted(e, SortBy(EarlierEvent(), preps), at);
      } else {
        assert Preps(events) == Preps(front);
      }
    }
  }

  /** What is latest: not after the failure, and not before any other that is not after it. */
  lemma {:induction false} LatestIsGreatest(events: seq<Event>, at: string)
    ensures LatestPrep(events, at).None? <==> forall e :: e in events && IsPrep(e) ==> !StrLe(At(e), at)
    ensures LatestPrep(events, at).Some? ==>
      var p := LatestPrep(events, at).value;
      && p in events && IsPrep(p) && StrLe(At(p), at)
      && forall e :: e in events && IsPrep(e) && StrLe(At(e), at) ==> StrLe(At(e), At(p))
  {
    if events != [] {
      var front, last := events[..|events| - 1], events[|events| - 1];
      LatestIsGreatest(front, at);
      assert forall e :: e in events <==> e in front || e == last;
      LatestStep(front, last, at);
    }
  }

  lemma LatestStep(front: seq<Event>, last: Event, at: string)
    requires LatestPrep(front, at).Some? ==>
      forall e :: e in front && IsPrep(e) && StrLe(At(e), at) ==> StrLe(At(e), At(LatestPrep(front, at).value))
    ensures LatestPrep(front, at).Some? && StrLe(At(LatestPrep(front, at).value), At(last)) ==>
      forall e :: e in front && IsPrep(e) && StrLe(At(e), at) ==> StrLe(At(e), At(last))
    ensures LatestPrep(front, at).Some? && !StrLe(At(LatestPrep(front, at).value), At(last)) ==>
      StrLe(At(last), At(LatestPrep(front, at).value))
    ensures StrLe(At(last), At(last))
  {
    StrLeTotal(At(last), At(last));
    if LatestPrep(front, at).Some? {
      var p := LatestPrep(front, at).value;
      StrLeTotal(At(last), At(p));
      if StrLe(At(p), At(last)) {
        forall e | e in front && IsPrep(e) && StrLe(At(e), at) ensures StrLe(At(e), At(last)) {
          StrLeTransitive(At(e), At(p), At(last));
        }
      }
    }
  }

  method LatestBefore(preps: seq<Event>, at: string) returns (latest: Option<Event>)
    ensures latest == LastUpTo(preps, at)
  {
    latest := None;
    for i := 0 to |preps|
      invariant latest == LastUpTo(preps[..i], at)
    {
      assert preps[..i + 1][..i] == preps[..i];
      if StrLe(At(preps[i]), at) { latest := Some(preps[i]); }
    }
    assert preps[..|preps|] == preps;
  }

  // ----- buckets ------------------------------------------------------------

  /** The provider endpoint a detail text names, if any. */
  type EndpointIn = string -> Option<string>

  type Place = (Option<string>, Option<int>, Option<string>)

  function EndpointOf(endpoint: EndpointIn, e: Event): Option<string>
  {
    match Field(e, "detail")
    case Text(text) => endpoint(text)
    case _ => None
  }

  /** The bucket of a failure: its own development and generation, and where one of them is not to
      be had, the latest re_prepare's. */
  function PlaceOf(endpoint: EndpointIn, events: seq<Event>, e: Event): Place
  {
    var development, generation := Development(e), Generation(e);
    var prep := if (development.None? || generation.None?) && Field(e, "at").Text? then LatestPrep(events, At(e)) else None;
    (if development.None? && prep.Some? then Development(prep.value) else development,
     if generation.None? && prep.Some? then Generation(prep.value) else generation,
     EndpointOf(endpoint, e))
  }

  function Places(endpoint: EndpointIn, events: seq<Event>, n: nat): seq<Place>
    requires n <= |events|
  {
    if n == 0 then []
    else
      Places(endpoint, events, n - 1)
      + if IsFailure(events[n - 1]) && InFence(events[n - 1]) then [PlaceOf(endpoint, events, events[n - 1])] else []
  }

  function OutOfFence(events: seq<Event>, n: nat): nat
    requires n <= |events|
  {
    if n == 0 then 0
    else OutOfFence(events, n - 1) + if IsFailure(events[n - 1]) && !InFence(events[n - 1]) then 1 else 0
  }

  function Failures(events: seq<Event>, n: nat): nat
    requires n <= |events|
  {
    if n == 0 then 0 else Failures(events, n - 1) + if IsFailure(events[n - 1]) then 1 else 0
  }

  type Counts = Dict<Place, nat>

  function Counted(d: Counts, places: seq<Place>): Counts
  {
    if places == [] then d else Bumped(Counted(d, places[..|places| - 1]), places[|places| - 1])
  }

  function Bumped(d: Counts, p: Place): Counts { Assign(d, p, Get(d, p, 0) + 1) }

  function SumCounts(ns: seq<nat>): nat { if ns == [] then 0 else ns[0] + SumCounts(ns[1..]) }

  datatype Source = Source(path: string, unavailable: nat, inFence: nat, outOfFence: nat, rePrepare: nat)

  method PlaceFailure(endpoint: EndpointIn, ghost events: seq<Event>, preps: seq<Event>, e: Event) returns (place: Place)
    requires preps == SortBy(EarlierEvent(), Preps(events))
    ensures place == PlaceOf(endpoint, events, e)
  {
    var development, generation := Development(e), Generation(e);
    if (development.None? || generation.None?) && Field(e, "at").Text? {
      var latest := LatestOf(events, preps, At(e));
      if latest.Some? {
        if development.None? { development := Development(latest.value); }
        if generation.None? { generation := Generation(latest.value); }
      }
    }
    place := (development, generation, EndpointOf(endpoint, e));
  }

  method LatestOf(ghost events: seq<Event>, preps: seq<Event>, at: string) returns (latest: Option<Event>)
    requires preps == SortBy(EarlierEvent(), Preps(events))
    ensures latest == LatestPrep(events, at)
  {
    BackfillIsLatest(events, at);
    latest := LatestBefore(preps, at);
  }

  /** What has been found in the first n events. */
  datatype Scan = Scan(counts: Counts, unavailable: nat, inFence: nat, outOfFence: nat)

  function ScanOf(endpoint: EndpointIn, events: seq<Event>, n: nat, counts: Counts): Scan
    requires n <= |events|
  {
    Scan(Counted(counts, Places(endpoint, events, n)), Failures(events, n), |Places(endpoint, events, n)|, OutOfFence(events, n))
  }

  lemma PlacesNext(endpoint: EndpointIn, events: seq<Event>, i: nat)
    requires i < |events|
    ensures Places(endpoint, events, i + 1)
      == if IsFailure(events[i]) && InFence(events[i])
         then Places(endpoint, events, i) + [PlaceOf(endpoint, events, events[i])]
         else Places(endpoint, events, i)
    ensures Failures(events, i + 1) == Failures(events, i) + if IsFailure(events[i]) then 1 else 0
    ensures OutOfFence(events, i + 1) == OutOfFence(events, i) + if IsFailure(events[i]) && !InFence(events[i]) then 1 else 0
  {
  }

  method ScanEvent(endpoint: EndpointIn, events: seq<Event>, preps: seq<Event>, i: nat, ghost counts: Counts, s: Scan) returns (next: Scan)
    requires i < |events| && preps == SortBy(EarlierEvent(), Preps(events)) && s == ScanOf(endpoint, events, i, counts)
    ensures next == ScanOf(endpoint, events, i + 1, counts)
  {
    var e := events[i];
    PlacesNext(endpoint, events, i);
    if !IsFailure(e) { return s; }
    if !InFence(e) { return s.(unavailable := s.unavailable + 1, outOfFence := s.outOfFence + 1); }
    var place := PlaceFailure(endpoint, events, preps, e);
    CountedNext(counts, Places(endpoint, events, i), place);
    next := Scan(Bumped(s.counts, place), s.unavailable + 1, s.inFence + 1, s.outOfFence);
  }

  method ScanFile(endpoint: EndpointIn, path: string, events: seq<Event>, counts: Counts) returns (source: Source, next: Counts)
    ensures next == Counted(counts, Places(endpoint, events, |events|))
    ensures source == Source(path, Failures(events, |events|), |Places(endpoint, events, |events|)|,
                             OutOfFence(events, |events|), |Preps(events)|)
  {
    var preps := SortBy(EarlierEvent(), Preps(events));
    SortByElements(EarlierEvent(), Preps(events));
    var s := Scan(counts, 0, 0, 0);
    for i := 0 to |events|
      invariant s == ScanOf(endpoint, events, i, counts)
    {
      s := ScanEvent(endpoint, events, preps, i, counts, s);
    }
    source, next := Source(path, s.unavailable, s.inFence, s.outOfFence, |preps|), s.counts;
  }

  lemma CountedNext(d: Counts, places: seq<Place>, p: Place)
    ensures Counted(d, places + [p]) == Bumped(Counted(d, places), p)
  {
    assert (places + [p])[..|places|] == places;
  }

  // ----- the section over all files -----------------------------------------

  /** An events file: None when it could not be read. */
  datatype EventsFile = EventsFile(path: string, events: Option<seq<Event>>)

  datatype Section = Section(sources: seq<Source>, counts: Counts, unavailable: nat, inFence: nat, outOfFence: nat)

  function EventsIn(file: EventsFile): seq<Event> { match file.events case Some(es) => es case None => [] }

  function AllPlaces(endpoint: EndpointIn, files: seq<EventsFile>): seq<Place>
  {
    if files == [] then []
    else
      var events := EventsIn(files[|files| - 1]);
      AllPlaces(endpoint, files[..|files| - 1]) + Places(endpoint, events, |events|)
  }

  function AllFailures(files: seq<EventsFile>): nat
  {
    if files == [] then 0
    else AllFailures(files[..|files| - 1]) + Failures(EventsIn(files[|files| - 1]), |EventsIn(files[|files| - 1])|)
  }

  function AllOutside(files: seq<EventsFile>): nat
  {
    if files == [] then 0
    else AllOutside(files[..|files| - 1]) + OutOfFence(EventsIn(files[|files| - 1]), |EventsIn(files[|files| - 1])|)
  }

  function SourceOf(endpoint: EndpointIn, file: EventsFile): Source
  {
    var events := EventsIn(file);
    Source(file.path, Failures(events, |events|), |Places(endpoint, events, |events|)|, OutOfFence(events, |events|), |Preps(events)|)
  }

  method ReadFile(endpoint: EndpointIn, file: EventsFile, ghost places: seq<Place>, counts: Counts) returns (source: Source, next: Counts)
    requires counts == Counted([], places)
    ensures source == SourceOf(endpoint, file)
    ensures next == Counted([], places + Places(endpoint, EventsIn(file), |EventsIn(file)|))
  {
    CountedParts([], places, Places(endpoint, EventsIn(file), |EventsIn(file)|));
    if file.events.None? {
      source, next := Source(file.path, 0, 0, 0, 0), counts;
    } else {
      source, next := ScanFile(endpoint, file.path, file.events.value, counts);
    }
  }

  function SourcesOf(endpoint: EndpointIn, files: seq<EventsFile>): seq<Source>
  {
    if files == [] then [] else SourcesOf(endpoint, files[..|files| - 1]) + [SourceOf(endpoint, files[|files| - 1])]
  }

  function SectionOf(endpoint: EndpointIn, files: seq<EventsFile>): Section
  {
    var places := AllPlaces(endpoint, files);
    Section(SourcesOf(endpoint, files), Counted([], places), AllFailures(files), |places|, AllOutside(files))
  }

  method AddSource(endpoint: EndpointIn, ghost front: seq<EventsFile>, file: EventsFile, section: Section) returns (next: Section)
    requires section == SectionOf(endpoint, front)
    ensures next == SectionOf(endpoint, front + [file])
  {
    assert (front + [file])[..|front|] == front;
    var source, counts := ReadFile(endpoint, file, AllPlaces(endpoint, front), section.counts);
    next := Section(section.sources + [source], counts, section.unavailable + source.unavailable,
                    section.inFence + source.inFence, section.outOfFence + source.outOfFence);
  }

  method DdSection(endpoint: EndpointIn, files: seq<EventsFile>) returns (section: Section)
    ensures section == SectionOf(endpoint, files)
  {
    section := Section([], [], 0, 0, 0);
    for i := 0 to |files|
      invariant section == SectionOf(endpoint, files[..i])
    {
      assert files[..i + 1] == files[..i] + [files[i]];
      section := AddSource(endpoint, files[..i], files[i], section);
    }
    assert files[..|files|] == files;
  }

  lemma {:induction false} CountedParts(d: Counts, a: seq<Place>, b: seq<Place>)
    ensures Counted(d, a + b) == Counted(Counted(d, a), b)
  {
    if b == [] {
      assert a + b == a;
    } else {
      assert (a + b)[..|a + b| - 1] == a + b[..|b| - 1];
      CountedParts(d, a, b[..|b| - 1]);
    }
  }

  // ----- every failure once -------------------------------------------------

  lemma {:induction false} FileSplits(endpoint: EndpointIn, events: seq<Event>, n: nat)
    requires n <= |events|
    ensures |Places(endpoint, events, n)| + OutOfFence(events, n) == Failures(events, n)
  {
    if n > 0 { FileSplits(endpoint, events, n - 1); }
  }

  lemma {:induction false} SumAssigned(d: Counts, p: Place)
    ensures SumCounts(Values(Assign(d, p, Get(d, p, 0) + 1))) == SumCounts(Values(d)) + 1
  {
    if d != [] {
      var n := Get(d, p, 0) + 1;
      if d[0].0 == p {
        assert ([(p, n)] + d[1..])[1..] == d[1..];
        assert Values(d)[1..] == Values(d[1..]) && Values([(p, n)] + d[1..])[1..] == Values(d[1..]);
      } else {
        SumAssigned(d[1..], p);
        var rest := Assign(d[1..], p, n);
        assert ([d[0]] + rest)[1..] == rest;
        assert Values(d)[1..] == Values(d[1..]) && Values([d[0]] + rest)[1..] == Values(rest);
      }
    }
  }

  lemma {:induction false} CountsArePlaces(places: seq<Place>, p: Place)
    ensures Get(Counted([], places), p, 0) == multiset(places)[p]
    ensures Has(Counted([], places), p) <==> p in places
    ensures Distinct(Keys(Counted([], places)))
  {
    if places != [] {
      var front, last := places[..|places| - 1], places[|places| - 1];
      var d := Counted([], front);
      CountsArePlaces(front, p);
      CountsArePlaces(front, last);
      AssignGet(d, last, Get(d, last, 0) + 1, p, 0);
      AssignDistinct(d, last, Get(d, last, 0) + 1);
      assert Counted([], places) == Bumped(d, last);
      assert places == front + [last];
      assert multiset(places) == multiset(front) + multiset{last};
    }
  }

  lemma {:induction false} CountsSum(places: seq<Place>)
    ensures SumCounts(Values(Counted([], places))) == |places|
  {
    if places != [] {
      CountsSum(places[..|places| - 1]);
      SumAssigned(Counted([], places[..|places| - 1]), places[|places| - 1]);
    }
  }

  lemma {:induction false} AllSplit(endpoint: EndpointIn, files: seq<EventsFile>)
    ensures |AllPlaces(endpoint, files)| + AllOutside(files) == AllFailures(files)
  {
    if files != [] {
      var events := EventsIn(files[|files| - 1]);
      AllSplit(endpoint, files[..|files| - 1]);
      FileSplits(endpoint, events, |events|);
    }
  }

  /** Over all files every provider failure is either outside the fence or in exactly one bucket: a
      bucket counts the failures that have its place, and the buckets add up to those in the fence. */
  lemma EveryFailureIsPlacedOnce(endpoint: EndpointIn, files: seq<EventsFile>, p: Place)
    ensures var places := AllPlaces(endpoint, files);
      var counts := Counted([], places);
      && |places| + AllOutside(files) == AllFailures(files)
      && SumCounts(Values(counts)) == |places|
      && Get(counts, p, 0) == multiset(places)[p] && (Has(counts, p) <==> p in places) && Distinct(Keys(counts))
  {
    AllSplit(endpoint, files);
    CountsSum(AllPlaces(endpoint, files));
    CountsArePlaces(AllPlaces(endpoint, files), p);
  }

  // ----- the place of a failure ---------------------------------------------

  predicate Backfilled(events: seq<Event>, e: Event)
  {
    Field(e, "at").Text? && LatestPrep(events, Field(e, "at").text).Some?
  }

  /** A failure keeps the development and the generation it names; what it does not name is taken
      from the latest re_prepare not after it, if the failure has a time and there is one. */
  lemma PlaceIs(endpoint: EndpointIn, events: seq<Event>, e: Event)
    ensures var (development, generation, provider) := PlaceOf(endpoint, events, e);
      && (Development(e).Some? ==> development == Development(e))
      && (Generation(e).Some? ==> generation == Generation(e))
      && (if Backfilled(events, e) then
            && (Development(e).None? ==> development == Development(LatestPrep(events, Field(e, "at").text).value))
            && (Generation(e).None? ==> generation == Generation(LatestPrep(events, Field(e, "at").text).value))
          else
            (development, generation) == (Development(e), Generation(e)))
      && provider == if Field(e, "detail").Text? then endpoint(Field(e, "detail").text) else None
  {
  }

  /** A development is a name that is not all white space and not the word for what is unavailable;
      a generation is an integer, booleans and fractions not among them. */
  lemma DimensionsAre(e: Event, name: string, number: int)
    ensures Development(e) == Some(name) <==>
      && Field(e, "development_id") == Json.Text(name) && name != DD_UNAVAILABLE
      && exists i :: 0 <= i < |name| && !IsSpace(name[i])
    ensures Generation(e) == Some(number) <==> Field(e, "generation") == Int(number)
  {
    StripFacts(name);
    if Strip(name) != "" { assert Strip(name)[0] in name; }
  }

  /** Which events count: failures by their code, the fence by its stage, re_prepares in the fence
      that have a time. */
  lemma EventsAre(e: Event)
    ensures IsFailure(e) <==> Field(e, "failure_code") == Json.Text("PROVIDER_UNAVAILABLE")
    ensures InFence(e) <==> Field(e, "stage") == Json.Text("implement")
    ensures IsPrep(e) <==>
      Field(e, "event") == Json.Text("re_prepare") && Field(e, "stage") == Json.Text("implement") && Field(e, "at").Text?
  {
  }

  /** Each source's line: the failures it holds, those in the fence and those outside, and its
      re_prepares; a file that could not be read holds none. */
  lemma {:induction false} SourcesAre(endpoint: EndpointIn, files: seq<EventsFile>, k: nat)
    requires k < |files|
    ensures |SourcesOf(endpoint, files)| == |files|
    ensures var events, line := if files[k].events.Some? then files[k].events.value else [], SourcesOf(endpoint, files)[k];
      && line.path == files[k].path
      && line.unavailable == NumberOf(events, Unavailable) && line.inFence == NumberOf(events, Inside)
      && line.outOfFence == NumberOf(events, Outside) && line.rePrepare == NumberOf(events, Prepared)
  {
    SourcesLength(endpoint, files);
    if k < |files| - 1 {
      SourcesLength(endpoint, files[..|files| - 1]);
      SourcesAre(endpoint, files[..|files| - 1], k);
    } else {
      var events := EventsIn(files[k]);
      assert events[..|events|] == events;
      EventsCounted(endpoint, events, |events|);
      PrepsCounted(events);
    }
  }

  function TotalOf(files: seq<EventsFile>, sort: Sort): nat
  {
    if files == [] then 0
    else
      var file := files[|files| - 1];
      TotalOf(files[..|files| - 1], sort) + match file.events case Some(events) => NumberOf(events, sort) case None => 0
  }

  /** The totals of the section, over all files that could be read. */
  lemma {:induction false} TotalsAre(endpoint: EndpointIn, files: seq<EventsFile>)
    ensures var section := SectionOf(endpoint, files);
      && section.unavailable == TotalOf(files, Unavailable) && section.inFence == TotalOf(files, Inside)
      && section.outOfFence == TotalOf(files, Outside)
  {
    if files != [] {
      TotalsAre(endpoint, files[..|files| - 1]);
      var events := EventsIn(files[|files| - 1]);
      assert events[..|events|] == events;
      EventsCounted(endpoint, events, |events|);
    }
  }

  lemma {:induction false} SourcesLength(endpoint: EndpointIn, files: seq<EventsFile>)
    ensures |SourcesOf(endpoint, files)| == |files|
  {
    if files != [] { SourcesLength(endpoint, files[..|files| - 1]); }
  }

  datatype Sort = Unavailable | Inside | Outside | Prepared

  /** Which events a number counts. */
  predicate Sorted(e: Event, sort: Sort)
  {
    match sort
    case Unavailable => Field(e, "failure_code") == Json.Text("PROVIDER_UNAVAILABLE")
    case Inside => Field(e, "failure_code") == Json.Text("PROVIDER_UNAVAILABLE") && Field(e, "stage") == Json.Text("implement")
    case Outside => Field(e, "failure_code") == Json.Text("PROVIDER_UNAVAILABLE") && Field(e, "stage") != Json.Text("implement")
    case Prepared => Field(e, "event") == Json.Text("re_prepare") && Field(e, "stage") == Json.Text("implement") && Field(e, "at").Text?
  }

  function NumberOf(events: seq<Event>, sort: Sort): nat
  {
    if events == [] then 0 else NumberOf(events[..|events| - 1], sort) + if Sorted(events[|events| - 1], sort) then 1 else 0
  }

  lemma {:induction false} EventsCounted(endpoint: EndpointIn, events: seq<Event>, n: nat)
    requires n <= |events|
    ensures Failures(events, n) == NumberOf(events[..n], Unavailable)
    ensures |Places(endpoint, events, n)| == NumberOf(events[..n], Inside)
    ensures OutOfFence(events, n) == NumberOf(events[..n], Outside)
  {
    if n > 0 {
      EventsCounted(endpoint, events, n - 1);
      assert events[..n][..n - 1] == events[..n - 1];
      EventsAre(events[n - 1]);
    }
  }

  lemma {:induction false} PrepsCounted(events: seq<Event>)
    ensures |Preps(events)| == NumberOf(events, Prepared)
  {
    if events != [] {
      PrepsCounted(events[..|events| - 1]);
      EventsAre(events[|events| - 1]);
    }
  }
}
