/** The line-side part of the timeout report (scripts/turn-timeout-report.py): every timeout round
    is counted in one bucket or in one row of missing variables. */
module Timeouts {
  import opened Dict
  import opened Json
  import opened Sorting
  import Text

  const TURN_TIMEOUT_REASON := "worker_turn_timeout"
  const MATRIX_FIELDS := [
    "seat", "model", "round_index", "turn_timeout_seconds", "seat_session_id",
    "turn_ordinal", "session_age", "input_bytes", "output_evidence"]

  type Record = Object

  /** The variables a timeout record must have: MATRIX_FIELDS in the script. */
  type Matrix = seq<string>

  datatype Class = TrueHang | CeilingHit | Unclassified

  /** The counters of a bucket, of a row, and of the whole report. */
  datatype Tally = Tally(rounds: nat, zeroOutput: nat, trueHangs: nat, ceilingHits: nat, unclassified: nat)

  function Zero(): Tally { Tally(0, 0, 0, 0, 0) }

  function Plus(a: Tally, b: Tally): Tally
  {
    Tally(a.rounds + b.rounds, a.zeroOutput + b.zeroOutput, a.trueHangs + b.trueHangs,
          a.ceilingHits + b.ceilingHits, a.unclassified + b.unclassified)
  }

  lemma PlusLaws(a: Tally, b: Tally, c: Tally)
    ensures Plus(a, Plus(b, c)) == Plus(Plus(a, b), c) && Plus(a, b) == Plus(b, a)
    ensures Plus(a, Zero()) == Plus(Zero(), a) == a && Plus(Plus(a, b), c) == Plus(Plus(a, c), b)
  {
  }

  predicate Balanced(t: Tally) { t.trueHangs + t.ceilingHits + t.unclassified == t.rounds && t.zeroOutput <= t.rounds }

  // ----- one record ---------------------------------------------------------

  predicate IsTimeout(r: Record) { Field(r, "reason") == Text(TURN_TIMEOUT_REASON) }

  function Absent(r: Record, names: seq<string>): seq<string>
  {
    if names == [] then []
    else Absent(r, names[..|names| - 1]) + if names[|names| - 1] in r then [] else [names[|names| - 1]]
  }

  method MissingMatrixFields(m: Matrix, r: Record) returns (absent: seq<string>)
    ensures absent == Absent(r, m)
  {
    absent := [];
    for i := 0 to |m|
      invariant absent == Absent(r, m[..i])
    {
      assert m[..i + 1][..i] == m[..i];
      if m[i] !in r { absent := absent + [m[i]]; }
    }
    assert m[..|m|] == m;
  }

  predicate Lacks(m: Matrix, r: Record) { Absent(r, m) != [] }

  predicate ZeroOutput(r: Record)
  {
    var evidence := Field(r, "output_evidence");
    evidence.Dict? && Field(evidence.fields, "zero_output") == Bool(true)
  }

  function ClassOf(r: Record): Class
  {
    var c := Field(r, "timeout_class");
    if c == Text("true_hang") then TrueHang else if c == Text("ceiling_hit") then CeilingHit else Unclassified
  }

  function TallyFor(zero: bool, c: Class): Tally
  {
    Tally(1, if zero then 1 else 0, if c.TrueHang? then 1 else 0, if c.CeilingHit? then 1 else 0, if c.Unclassified? then 1 else 0)
  }

  function One(r: Record): Tally { TallyFor(ZeroOutput(r), ClassOf(r)) }

  /** What a dict takes for the key of a record's bucket: True is 1 and 1.0 is 1. */
  type Key = (Json, Json, Json)

  function KeyFor(r: Record): Key
  {
    (KeyOf(Field(r, "seat_session_id")), KeyOf(Field(r, "turn_ordinal")), KeyOf(Field(r, "session_age")))
  }

  /** A list or an object in a key field cannot be a key: TypeError. */
  predicate Raises(m: Matrix, r: Record)
  {
    && IsTimeout(r) && !Lacks(m, r)
    && !(Hashable(Field(r, "seat_session_id")) && Hashable(Field(r, "turn_ordinal")) && Hashable(Field(r, "session_age")))
  }

  /** Records picked out of a file. */
  datatype Choice = EveryTimeout | Incomplete | InBucket(key: Key)

  predicate Chosen(m: Matrix, c: Choice, r: Record)
  {
    && IsTimeout(r)
    && match c
       case EveryTimeout => true
       case Incomplete => Lacks(m, r)
       case InBucket(key) => !Lacks(m, r) && KeyFor(r) == key
  }

  function TallyOf(m: Matrix, c: Choice, rs: seq<Record>): Tally
  {
    if rs == [] then Zero()
    else
      var front := TallyOf(m, c, rs[..|rs| - 1]);
      if Chosen(m, c, rs[|rs| - 1]) then Plus(front, One(rs[|rs| - 1])) else front
  }

  /** The first value other than null among the chosen records. */
  function FirstSeen(m: Matrix, c: Choice, rs: seq<Record>, name: string): Json
  {
    if rs == [] then Null
    else
      var front := FirstSeen(m, c, rs[..|rs| - 1], name);
      if front == Null && Chosen(m, c, rs[|rs| - 1]) then Field(rs[|rs| - 1], name) else front
  }

  // ----- buckets ------------------------------------------------------------

  datatype Bucket = Bucket(source: string, session: Json, ordinal: Json, age: Json, seat: Json, model: Json, tally: Tally)

  type Buckets = Dict<Key, Bucket>

  function NewBucket(source: string, r: Record): Bucket
  {
    Bucket(source, Field(r, "seat_session_id"), Field(r, "turn_ordinal"), Field(r, "session_age"), Null, Null, Zero())
  }

  function Noted(b: Bucket, r: Record): Bucket
  {
    b.(seat := if b.seat == Null then Field(r, "seat") else b.seat,
       model := if b.model == Null then Field(r, "model") else b.model,
       tally := Plus(b.tally, One(r)))
  }

  function Filed(source: string, d: Buckets, r: Record): Buckets
  {
    Assign(d, KeyFor(r), Noted(Get(d, KeyFor(r), NewBucket(source, r)), r))
  }

  function BucketsOf(m: Matrix, source: string, rs: seq<Record>): Buckets
  {
    if rs == [] then []
    else
      var front := BucketsOf(m, source, rs[..|rs| - 1]);
      var r := rs[|rs| - 1];
      if IsTimeout(r) && !Lacks(m, r) then Filed(source, front, r) else front
  }

  datatype MissingRow = MissingRow(round: Json, missing: seq<string>, zeroOutput: bool, class_: Class)

  function RowsOf(m: Matrix, rs: seq<Record>): seq<MissingRow>
  {
    if rs == [] then []
    else
      var front := RowsOf(m, rs[..|rs| - 1]);
      var r := rs[|rs| - 1];
      if IsTimeout(r) && Lacks(m, r)
      then front + [MissingRow(Field(r, "round"), Absent(r, m), ZeroOutput(r), ClassOf(r))]
      else front
  }

  function SumBuckets(bs: seq<Bucket>): Tally
  {
    if bs == [] then Zero() else Plus(SumBuckets(bs[..|bs| - 1]), bs[|bs| - 1].tally)
  }

  function SumRows(rows: seq<MissingRow>): Tally
  {
    if rows == [] then Zero()
    else Plus(SumRows(rows[..|rows| - 1]), TallyFor(rows[|rows| - 1].zeroOutput, rows[|rows| - 1].class_))
  }

  /** How many rows miss a field. */
  function Missed(rows: seq<MissingRow>, name: string): nat
  {
    if rows == [] then 0
    else Missed(rows[..|rows| - 1], name) + Times(rows[|rows| - 1].missing, name)
  }

  function Times(names: seq<string>, name: string): nat
  {
    if names == [] then 0 else Times(names[..|names| - 1], name) + if names[|names| - 1] == name then 1 else 0
  }

  function CountIn(byField: map<string, nat>, name: string): nat { if name in byField then byField[name] else 0 }

  ghost predicate CountsFields(byField: map<string, nat>, rows: seq<MissingRow>)
  {
    forall name :: CountIn(byField, name) == Missed(rows, name)
  }

  lemma {:induction false} MissedParts(a: seq<MissingRow>, b: seq<MissingRow>, name: string)
    ensures Missed(a + b, name) == Missed(a, name) + Missed(b, name)
  {
    if b == [] {
      assert a + b == a;
    } else {
      Text.LastSplit(a, b);
      assert ((a + b[..|b| - 1]) + [b[|b| - 1]])[..|a + b| - 1] == a + b[..|b| - 1];
      MissedParts(a, b[..|b| - 1], name);
    }
  }

  /** One file's counts by field added to the total. */
  method MergeCounts(total: map<string, nat>, one: map<string, nat>, ghost before: seq<MissingRow>, ghost rows: seq<MissingRow>)
    returns (next: map<string, nat>)
    requires CountsFields(total, before) && CountsFields(one, rows)
    ensures CountsFields(next, before + rows)
  {
    next := total;
    var rest := one.Keys;
    while rest != {}
      invariant rest <= one.Keys
      invariant forall name :: CountIn(next, name) == CountIn(total, name) + if name in rest then 0 else CountIn(one, name)
      decreases rest
    {
      var name :| name in rest;
      next := next[name := CountIn(next, name) + one[name]];
      rest := rest - {name};
    }
    forall name ensures CountIn(next, name) == Missed(before + rows, name) {
      MissedParts(before, rows, name);
      assert CountIn(total, name) == Missed(before, name) && CountIn(one, name) == Missed(rows, name);
    }
  }

  // ----- the report of one file ---------------------------------------------

  /** str() of a key field; the order of the rows is all it is for. */
  type Shown = Json -> string

  function RowKey(shown: Shown, b: Bucket): seq<string> { [b.source, shown(b.session), shown(b.ordinal), shown(b.age)] }

  predicate TupleLe(a: seq<string>, b: seq<string>)
  {
    a == [] || (b != [] && if a[0] == b[0] then TupleLe(a[1..], b[1..]) else Text.StrLe(a[0], b[0]))
  }

  function RowLe(shown: Shown): (Bucket, Bucket) -> bool { (a, b) => TupleLe(RowKey(shown, a), RowKey(shown, b)) }

  function RowsFor(m: Matrix, shown: Shown, source: string, rs: seq<Record>): seq<Bucket>
  {
    SortBy(RowLe(shown), Values(BucketsOf(m, source, rs)))
  }

  datatype Summary = Summary(tally: Tally, count: nat, byField: map<string, nat>, rows: seq<MissingRow>)

  datatype FileReport = FileReport(rows: seq<Bucket>, summary: Summary) | TypeFault

  method DisplayValues(bucket: Bucket, r: Record) returns (b: Bucket)
    ensures b == bucket.(seat := if bucket.seat == Null then Field(r, "seat") else bucket.seat,
                         model := if bucket.model == Null then Field(r, "model") else bucket.model)
  {
    b := bucket;
    if b.seat == Null && Field(r, "seat") != Null { b := b.(seat := Field(r, "seat")); }
    if b.model == Null && Field(r, "model") != Null { b := b.(model := Field(r, "model")); }
  }

  method CountClass(tally: Tally, r: Record) returns (t: Tally)
    ensures t == Plus(tally, One(r))
  {
    t := tally.(rounds := tally.rounds + 1);
    if ZeroOutput(r) { t := t.(zeroOutput := t.zeroOutput + 1); }
    var c := ClassOf(r);
    if c == TrueHang {
      t := t.(trueHangs := t.trueHangs + 1);
    } else if c == CeilingHit {
      t := t.(ceilingHits := t.ceilingHits + 1);
    } else {
      t := t.(unclassified := t.unclassified + 1);
    }
  }

  method FileRecord(source: string, buckets: Buckets, r: Record) returns (next: Buckets)
    ensures next == Filed(source, buckets, r)
  {
    var key := KeyFor(r);
    var bucket := Get(buckets, key, NewBucket(source, r));
    var shown := DisplayValues(bucket, r);
    var tally := CountClass(shown.tally, r);
    next := Assign(buckets, key, shown.(tally := tally));
  }

  method CountMissing(byField: map<string, nat>, rows: seq<MissingRow>, row: MissingRow) returns (next: map<string, nat>)
    requires CountsFields(byField, rows)
    ensures CountsFields(next, rows + [row])
  {
    next := byField;
    for i := 0 to |row.missing|
      invariant forall name :: CountIn(next, name) == Missed(rows, name) + Times(row.missing[..i], name)
    {
      var name := row.missing[i];
      assert row.missing[..i + 1][..i] == row.missing[..i];
      next := next[name := CountIn(next, name) + 1];
    }
    assert row.missing[..|row.missing|] == row.missing && (rows + [row])[..|rows|] == rows;
  }

  method BucketRows(m: Matrix, shown: Shown, source: string, records: seq<Record>) returns (report: FileReport)
    ensures report.TypeFault? <==> exists r :: r in records && Raises(m, r)
    ensures report.FileReport? ==>
      && report.rows == RowsFor(m, shown, source, records)
      && report.summary.rows == RowsOf(m, records) && report.summary.count == |RowsOf(m, records)|
      && CountsFields(report.summary.byField, RowsOf(m, records))
      && report.summary.tally == Plus(SumBuckets(report.rows), SumRows(RowsOf(m, records))) == TallyOf(m, EveryTimeout, records)
  {
    EveryTimeoutIsCountedOnce(m, shown, source, records);
    var found := FileRecords(m, source, records);
    if found.Failed? { return TypeFault; }
    var rows := SortBy(RowLe(shown), Values(found.buckets));
    var tally := Plus(SumBuckets(rows), SumRows(found.missing));
    report := FileReport(rows, Summary(tally, |found.missing|, found.byField, found.missing));
  }

  datatype Found = Found(buckets: Buckets, missing: seq<MissingRow>, byField: map<string, nat>) | Failed

  ghost predicate FoundIn(m: Matrix, found: Found, source: string, rs: seq<Record>)
  {
    && found.Found? && found.buckets == BucketsOf(m, source, rs) && found.missing == RowsOf(m, rs)
    && CountsFields(found.byField, RowsOf(m, rs))
  }

  method FileRecords(m: Matrix, source: string, records: seq<Record>) returns (found: Found)
    ensures found.Failed? <==> exists r :: r in records && Raises(m, r)
    ensures found.Found? ==> FoundIn(m, found, source, records)
  {
    found := Found([], [], map[]);
    for i := 0 to |records|
      invariant forall r :: r in records[..i] ==> !Raises(m, r)
      invariant FoundIn(m, found, source, records[..i])
    {
      assert records[..i + 1] == records[..i] + [records[i]];
      found := FileOne(m, source, records[..i], records[i], found);
      if found.Failed? { return; }
    }
    assert records[..|records|] == records;
  }

  method FileOne(m: Matrix, source: string, ghost before: seq<Record>, r: Record, found: Found) returns (next: Found)
    requires FoundIn(m, found, source, before)
    ensures next.Failed? <==> Raises(m, r)
    ensures next.Found? ==> FoundIn(m, next, source, before + [r])
  {
    assert (before + [r])[..|before|] == before;
    if !IsTimeout(r) { return found; }
    var absent := MissingMatrixFields(m, r);
    if absent != [] {
      var row := MissingRow(Field(r, "round"), absent, ZeroOutput(r), ClassOf(r));
      var byField := CountMissing(found.byField, found.missing, row);
      return Found(found.buckets, found.missing + [row], byField);
    }
    if Raises(m, r) { return Failed; }
    var buckets := FileRecord(source, found.buckets, r);
    next := Found(buckets, found.missing, found.byField);
  }

  // ----- every timeout once -------------------------------------------------

  lemma {:induction false} TallyBalanced(m: Matrix, c: Choice, rs: seq<Record>)
    ensures Balanced(TallyOf(m, c, rs))
  {
    if rs != [] { TallyBalanced(m, c, rs[..|rs| - 1]); }
  }

  lemma {:induction false} BucketsDistinct(m: Matrix, source: string, rs: seq<Record>)
    ensures Distinct(Keys(BucketsOf(m, source, rs)))
  {
    if rs != [] {
      var d, r := BucketsOf(m, source, rs[..|rs| - 1]), rs[|rs| - 1];
      BucketsDistinct(m, source, rs[..|rs| - 1]);
      AssignDistinct(d, KeyFor(r), Noted(Get(d, KeyFor(r), NewBucket(source, r)), r));
    }
  }

  /** What a bucket has to say about the records with its key. */
  predicate Describes(m: Matrix, b: Bucket, source: string, rs: seq<Record>, key: Key)
  {
    && b.source == source && b.tally == TallyOf(m, InBucket(key), rs)
    && b.seat == FirstSeen(m, InBucket(key), rs, "seat") && b.model == FirstSeen(m, InBucket(key), rs, "model")
    && (KeyOf(b.session), KeyOf(b.ordinal), KeyOf(b.age)) == key
  }

  lemma NewDescribes(m: Matrix, source: string, r: Record)
    ensures Describes(m, NewBucket(source, r), source, [], KeyFor(r))
  {
  }

  lemma NotedDescribes(m: Matrix, b: Bucket, source: string, rs: seq<Record>, r: Record)
    requires IsTimeout(r) && !Lacks(m, r) && Describes(m, b, source, rs, KeyFor(r))
    ensures Describes(m, Noted(b, r), source, rs + [r], KeyFor(r))
  {
    assert (rs + [r])[..|rs|] == rs;
  }

  lemma OtherDescribes(m: Matrix, b: Bucket, source: string, rs: seq<Record>, r: Record, key: Key)
    requires Describes(m, b, source, rs, key) && !Chosen(m, InBucket(key), r)
    ensures Describes(m, b, source, rs + [r], key)
  {
    assert (rs + [r])[..|rs|] == rs;
  }

  lemma {:induction false} NoneDescribes(m: Matrix, b: Bucket, source: string, rs: seq<Record>, key: Key)
    requires Describes(m, b, source, [], key) && forall r :: r in rs ==> !Chosen(m, InBucket(key), r)
    ensures Describes(m, b, source, rs, key)
  {
    if rs != [] {
      NoneDescribes(m, b, source, rs[..|rs| - 1], key);
      OtherDescribes(m, b, source, rs[..|rs| - 1], rs[|rs| - 1], key);
      assert rs[..|rs| - 1] + [rs[|rs| - 1]] == rs;
    }
  }

  ghost predicate AnyChosen(m: Matrix, c: Choice, rs: seq<Record>) { exists r :: r in rs && Chosen(m, c, r) }

  lemma AnyChosenSnoc(m: Matrix, c: Choice, front: seq<Record>, r: Record)
    ensures AnyChosen(m, c, front + [r]) <==> Chosen(m, c, r) || AnyChosen(m, c, front)
  {
    assert (front + [r])[|front|] == r;
    assert forall x :: x in front + [r] <==> x in front || x == r;
  }

  lemma {:induction false} BucketExists(m: Matrix, source: string, rs: seq<Record>, key: Key)
    ensures Has(BucketsOf(m, source, rs), key) <==> AnyChosen(m, InBucket(key), rs)
  {
    if rs != [] {
      var front, r := rs[..|rs| - 1], rs[|rs| - 1];
      assert rs == front + [r];
      BucketExists(m, source, front, key);
      AnyChosenSnoc(m, InBucket(key), front, r);
      FiledHas(source, BucketsOf(m, source, front), r, key);
    }
  }

  lemma FiledHas(source: string, d: Buckets, r: Record, key: Key)
    ensures Has(Filed(source, d, r), key) <==> key == KeyFor(r) || Has(d, key)
  {
    AssignGet(d, KeyFor(r), Noted(Get(d, KeyFor(r), NewBucket(source, r)), r), key, NewBucket(source, r));
  }

  lemma {:induction false} BucketDescribes(m: Matrix, source: string, rs: seq<Record>, key: Key, default: Bucket)
    requires Has(BucketsOf(m, source, rs), key)
    ensures Describes(m, Get(BucketsOf(m, source, rs), key, default), source, rs, key)
    decreases |rs|, 0
  {
    var front, r := rs[..|rs| - 1], rs[|rs| - 1];
    assert rs == front + [r];
    if IsTimeout(r) && !Lacks(m, r) {
      BucketAfter(m, source, front, r, key, default);
    } else {
      BucketDescribes(m, source, front, key, default);
      OtherDescribes(m, Get(BucketsOf(m, source, front), key, default), source, front, r, key);
    }
  }

  lemma {:induction false} BucketAfter(m: Matrix, source: string, front: seq<Record>, r: Record, key: Key, default: Bucket)
    requires IsTimeout(r) && !Lacks(m, r) && Has(Filed(source, BucketsOf(m, source, front), r), key)
    ensures Describes(m, Get(Filed(source, BucketsOf(m, source, front), r), key, default), source, front + [r], key)
    decreases |front|, 1
  {
    var d, new_ := BucketsOf(m, source, front), NewBucket(source, r);
    AssignGet(d, KeyFor(r), Noted(Get(d, KeyFor(r), new_), r), key, default);
    if KeyFor(r) != key {
      BucketDescribes(m, source, front, key, default);
      OtherDescribes(m, Get(d, key, default), source, front, r, key);
    } else {
      BucketExists(m, source, front, key);
      if Has(d, key) {
        BucketDescribes(m, source, front, key, new_);
      } else {
        GetIsEntry(d, key, new_);
        NewDescribes(m, source, r);
        NoneDescribes(m, new_, source, front, key);
      }
      NotedDescribes(m, Get(d, key, new_), source, front, r);
    }
  }

  /** A bucket is there exactly when a complete timeout record has its key; it counts exactly those
      records, shows the first seat and model they name, and there is one bucket to a key. */
  lemma BucketIsItsRecords(m: Matrix, source: string, rs: seq<Record>, key: Key, default: Bucket)
    ensures Distinct(Keys(BucketsOf(m, source, rs)))
    ensures Has(BucketsOf(m, source, rs), key) <==> exists r :: r in rs && Chosen(m, InBucket(key), r)
    ensures Has(BucketsOf(m, source, rs), key) ==> Describes(m, Get(BucketsOf(m, source, rs), key, default), source, rs, key)
  {
    BucketsDistinct(m, source, rs);
    BucketExists(m, source, rs, key);
    if Has(BucketsOf(m, source, rs), key) { BucketDescribes(m, source, rs, key, default); }
  }

  lemma {:induction false} SumBucketsParts(a: seq<Bucket>, b: seq<Bucket>)
    ensures SumBuckets(a + b) == Plus(SumBuckets(a), SumBuckets(b))
  {
    if b == [] {
      assert a + b == a;
      PlusLaws(SumBuckets(a), Zero(), Zero());
    } else {
      assert (a + b)[..|a + b| - 1] == a + b[..|b| - 1];
      SumBucketsParts(a, b[..|b| - 1]);
      PlusLaws(SumBuckets(a), SumBuckets(b[..|b| - 1]), b[|b| - 1].tally);
    }
  }

  lemma SumBucketsCons(b: Bucket, bs: seq<Bucket>)
    ensures SumBuckets([b] + bs) == Plus(b.tally, SumBuckets(bs))
  {
    SumBucketsParts([b], bs);
    assert [b][..0] == [];
  }

  /** Noting a record in a dict of buckets adds that record to the sum. */
  lemma {:induction false} SumAfterNoting(d: Buckets, key: Key, empty: Bucket, r: Record)
    requires empty.tally == Zero()
    ensures SumBuckets(Values(Assign(d, key, Noted(Get(d, key, empty), r)))) == Plus(SumBuckets(Values(d)), One(r))
  {
    var b := Noted(Get(d, key, empty), r);
    if d == [] {
      SumBucketsCons(b, []);
      assert Values(Assign(d, key, b)) == [b] + [];
      PlusLaws(b.tally, Zero(), Zero());
    } else {
      var head, tail := d[0].1, SumBuckets(Values(d[1..]));
      SumBucketsCons(head, Values(d[1..]));
      PlusLaws(head.tally, tail, One(r));
      if d[0].0 == key {
        SumBucketsCons(b, Values(d[1..]));
        assert ([(key, b)] + d[1..])[1..] == d[1..];
        PlusLaws(head.tally, One(r), tail);
      } else {
        SumAfterNoting(d[1..], key, empty, r);
        var rest := Assign(d[1..], key, b);
        SumBucketsCons(head, Values(rest));
        assert ([d[0]] + rest)[1..] == rest;
      }
    }
  }

  lemma {:induction false} SumInserted(le: (Bucket, Bucket) -> bool, x: Bucket, s: seq<Bucket>)
    ensures SumBuckets(InsertBy(le, x, s)) == Plus(SumBuckets(s), x.tally)
  {
    if s == [] {
      assert [x][..0] == [];
    } else if le(s[|s| - 1], x) {
      assert (s + [x])[..|s|] == s;
    } else {
      var front, last := s[..|s| - 1], s[|s| - 1];
      var inserted := InsertBy(le, x, front);
      SumInserted(le, x, front);
      assert (inserted + [last])[..|inserted|] == inserted;
      PlusLaws(SumBuckets(front), x.tally, last.tally);
    }
  }

  lemma {:induction false} SumSorted(le: (Bucket, Bucket) -> bool, s: seq<Bucket>)
    ensures SumBuckets(SortBy(le, s)) == SumBuckets(s)
  {
    if s != [] {
      SumSorted(le, s[..|s| - 1]);
      SumInserted(le, s[|s| - 1], SortBy(le, s[..|s| - 1]));
    }
  }

  lemma {:induction false} RowsTally(m: Matrix, rs: seq<Record>)
    ensures SumRows(RowsOf(m, rs)) == TallyOf(m, Incomplete, rs) && |RowsOf(m, rs)| == TallyOf(m, Incomplete, rs).rounds
  {
    if rs != [] {
      RowsTally(m, rs[..|rs| - 1]);
      var front := RowsOf(m, rs[..|rs| - 1]);
      if IsTimeout(rs[|rs| - 1]) && Lacks(m, rs[|rs| - 1]) { assert RowsOf(m, rs)[..|front|] == front; }
    }
  }

  lemma NoBuckets(m: Matrix, source: string, rs: seq<Record>)
    requires rs == []
    ensures Plus(SumBuckets(Values(BucketsOf(m, source, rs))), TallyOf(m, Incomplete, rs)) == TallyOf(m, EveryTimeout, rs)
  {
    assert BucketsOf(m, source, rs) == [] && TallyOf(m, Incomplete, rs) == Zero() && TallyOf(m, EveryTimeout, rs) == Zero();
    PlusLaws(Zero(), Zero(), Zero());
  }

  lemma {:induction false} BucketsTally(m: Matrix, source: string, rs: seq<Record>)
    ensures Plus(SumBuckets(Values(BucketsOf(m, source, rs))), TallyOf(m, Incomplete, rs)) == TallyOf(m, EveryTimeout, rs)
  {
    if rs == [] {
      NoBuckets(m, source, rs);
    } else {
      BucketsTally(m, source, rs[..|rs| - 1]);
      BucketsTallyStep(m, source, rs[..|rs| - 1], rs[|rs| - 1]);
      assert rs == rs[..|rs| - 1] + [rs[|rs| - 1]];
    }
  }

  lemma TallyStep(m: Matrix, c: Choice, front: seq<Record>, r: Record)
    ensures TallyOf(m, c, front + [r]) == if Chosen(m, c, r) then Plus(TallyOf(m, c, front), One(r)) else TallyOf(m, c, front)
  {
    assert (front + [r])[..|front|] == front;
  }

  lemma BucketsStep(m: Matrix, source: string, front: seq<Record>, r: Record)
    ensures BucketsOf(m, source, front + [r])
      == if Chosen(m, EveryTimeout, r) && !Lacks(m, r) then Filed(source, BucketsOf(m, source, front), r) else BucketsOf(m, source, front)
  {
    assert (front + [r])[..|front|] == front;
  }

  /** One more record goes to one of the two, or is no timeout. */
  lemma OneMore(b: Tally, i: Tally, total: Tally, b': Tally, i': Tally, total': Tally, one: Tally, timeout: bool, lacks: bool)
    requires Plus(b, i) == total
    requires b' == if timeout && !lacks then Plus(b, one) else b
    requires i' == if timeout && lacks then Plus(i, one) else i
    requires total' == if timeout then Plus(total, one) else total
    ensures Plus(b', i') == total'
  {
    PlusLaws(b, one, i);
    PlusLaws(b, i, one);
  }

  lemma BucketsTallyStep(m: Matrix, source: string, front: seq<Record>, r: Record)
    requires Plus(SumBuckets(Values(BucketsOf(m, source, front))), TallyOf(m, Incomplete, front)) == TallyOf(m, EveryTimeout, front)
    ensures Plus(SumBuckets(Values(BucketsOf(m, source, front + [r]))), TallyOf(m, Incomplete, front + [r]))
      == TallyOf(m, EveryTimeout, front + [r])
  {
    TallyStep(m, Incomplete, front, r);
    TallyStep(m, EveryTimeout, front, r);
    SumStep(m, source, front, r);
    OneMore(SumBuckets(Values(BucketsOf(m, source, front))), TallyOf(m, Incomplete, front), TallyOf(m, EveryTimeout, front),
            SumBuckets(Values(BucketsOf(m, source, front + [r]))), TallyOf(m, Incomplete, front + [r]),
            TallyOf(m, EveryTimeout, front + [r]), One(r), IsTimeout(r), Lacks(m, r));
  }

  lemma SumStep(m: Matrix, source: string, front: seq<Record>, r: Record)
    ensures SumBuckets(Values(BucketsOf(m, source, front + [r])))
      == if Chosen(m, EveryTimeout, r) && !Lacks(m, r) then Plus(SumBuckets(Values(BucketsOf(m, source, front))), One(r))
         else SumBuckets(Values(BucketsOf(m, source, front)))
  {
    BucketsStep(m, source, front, r);
    SumAfterNoting(BucketsOf(m, source, front), KeyFor(r), NewBucket(source, r), r);
  }

  function HowMany(rs: seq<Record>): nat
  {
    if rs == [] then 0 else HowMany(rs[..|rs| - 1]) + if IsTimeout(rs[|rs| - 1]) then 1 else 0
  }

  lemma {:induction false} RoundsAreTimeouts(m: Matrix, rs: seq<Record>)
    ensures TallyOf(m, EveryTimeout, rs).rounds == HowMany(rs)
  {
    if rs != [] { RoundsAreTimeouts(m, rs[..|rs| - 1]); }
  }

  /** The accounts of one file: the buckets and the rows of missing variables together count every
      timeout round once, by class and by output, and the classes add up to the rounds. */
  lemma EveryTimeoutIsCountedOnce(m: Matrix, shown: Shown, source: string, rs: seq<Record>)
    ensures var rows := RowsFor(m, shown, source, rs);
      var total := Plus(SumBuckets(rows), SumRows(RowsOf(m, rs)));
      && total == TallyOf(m, EveryTimeout, rs) && Balanced(total) && total.rounds == HowMany(rs)
      && total.rounds == SumBuckets(rows).rounds + |RowsOf(m, rs)|
  {
    SumSorted(RowLe(shown), Values(BucketsOf(m, source, rs)));
    BucketsTally(m, source, rs);
    RowsTally(m, rs);
    TallyBalanced(m, EveryTimeout, rs);
    RoundsAreTimeouts(m, rs);
  }

  // ----- the report over all files ------------------------------------------

  /** A rounds file: its records, or None when it could not be read, and how many lines of it were
      no JSON objects. */
  datatype RoundsFile = RoundsFile(path: string, records: Text.Option<seq<Record>>, unparsable: nat)

  datatype Source = Source(path: string, records: nat, timeouts: nat, unparsable: nat) | Unreadable(path: string)

  function SourceOf(file: RoundsFile): Source
  {
    match file.records
    case None => Unreadable(file.path)
    case Some(rs) => Source(file.path, |rs|, HowMany(rs), file.unparsable)
  }

  function SourcesOf(files: seq<RoundsFile>): seq<Source>
  {
    if files == [] then [] else SourcesOf(files[..|files| - 1]) + [SourceOf(files[|files| - 1])]
  }

  /** The rows of missing variables of all files. */
  function MissingRows(m: Matrix, files: seq<RoundsFile>): seq<MissingRow>
  {
    if files == [] then [] else MissingRows(m, files[..|files| - 1]) + RowsOf(m, RecordsIn(files[|files| - 1]))
  }

  datatype Report = Report(records: nat, totals: Tally, rows: seq<Bucket>, missing: seq<(string, MissingRow)>) | ReportTypeFault

  function AllRecords(files: seq<RoundsFile>): seq<Record>
  {
    if files == [] then [] else AllRecords(files[..|files| - 1]) + RecordsIn(files[|files| - 1])
  }

  function RecordsIn(file: RoundsFile): seq<Record> { match file.records case Some(rs) => rs case None => [] }

  function Tagged(source: string, rows: seq<MissingRow>): seq<(string, MissingRow)>
  {
    if rows == [] then [] else Tagged(source, rows[..|rows| - 1]) + [(source, rows[|rows| - 1])]
  }

  /** What a readable file adds to the report; the rows of all files are sorted at the end. */
  function Extended(m: Matrix, shown: Shown, acc: Report, path: string, rs: seq<Record>): Report
    requires acc.Report?
  {
    Report(acc.records + |rs|, Plus(acc.totals, TallyOf(m, EveryTimeout, rs)),
           acc.rows + RowsFor(m, shown, path, rs), acc.missing + Tagged(path, RowsOf(m, rs)))
  }

  function Collected(m: Matrix, shown: Shown, files: seq<RoundsFile>): (r: Report)
    ensures r.Report?
  {
    if files == [] then Report(0, Zero(), [], [])
    else
      var file := files[|files| - 1];
      Extended(m, shown, Collected(m, shown, files[..|files| - 1]), file.path, RecordsIn(file))
  }

  predicate AnyRaises(m: Matrix, rs: seq<Record>) { exists r :: r in rs && Raises(m, r) }

  function ReportOf(m: Matrix, shown: Shown, files: seq<RoundsFile>): Report
  {
    if AnyRaises(m, AllRecords(files)) then ReportTypeFault
    else
      var all := Collected(m, shown, files);
      all.(rows := SortBy(RowLe(shown), all.rows))
  }

  lemma {:induction false} TallyParts(m: Matrix, c: Choice, a: seq<Record>, b: seq<Record>)
    ensures TallyOf(m, c, a + b) == Plus(TallyOf(m, c, a), TallyOf(m, c, b))
  {
    if b == [] {
      assert a + b == a;
      PlusLaws(TallyOf(m, c, a), Zero(), Zero());
    } else {
      assert (a + b)[..|a + b| - 1] == a + b[..|b| - 1];
      TallyParts(m, c, a, b[..|b| - 1]);
      PlusLaws(TallyOf(m, c, a), TallyOf(m, c, b[..|b| - 1]), One(b[|b| - 1]));
    }
  }

  method TagRows(source: string, rows: seq<MissingRow>) returns (tagged: seq<(string, MissingRow)>)
    ensures tagged == Tagged(source, rows)
  {
    tagged := [];
    for i := 0 to |rows|
      invariant tagged == Tagged(source, rows[..i])
    {
      assert rows[..i + 1][..i] == rows[..i];
      tagged := tagged + [(source, rows[i])];
    }
    assert rows[..|rows|] == rows;
  }

  method AddFile(m: Matrix, shown: Shown, acc: Report, byField: map<string, nat>, ghost before: seq<MissingRow>, file: RoundsFile)
    returns (next: Report, source: Source, byField': map<string, nat>)
    requires acc.Report? && CountsFields(byField, before)
    ensures next == if AnyRaises(m, RecordsIn(file)) then ReportTypeFault else Extended(m, shown, acc, file.path, RecordsIn(file))
    ensures next.Report? ==> source == SourceOf(file) && CountsFields(byField', before + RowsOf(m, RecordsIn(file)))
  {
    source, byField' := Unreadable(file.path), byField;
    if file.records.None? {
      AddedNothing(m, shown, acc, file.path);
      assert before + [] == before;
      return acc, source, byField';
    }
    var rs := file.records.value;
    var one := BucketRows(m, shown, file.path, rs);
    if one.TypeFault? { return ReportTypeFault, source, byField'; }
    RoundsAreTimeouts(m, rs);
    source := Source(file.path, |rs|, one.summary.tally.rounds, file.unparsable);
    byField' := MergeCounts(byField, one.summary.byField, before, one.summary.rows);
    var tagged := TagRows(file.path, one.summary.rows);
    next := Report(acc.records + |rs|, Plus(acc.totals, one.summary.tally), acc.rows + one.rows, acc.missing + tagged);
  }

  lemma AddedNothing(m: Matrix, shown: Shown, acc: Report, path: string)
    requires acc.Report?
    ensures Extended(m, shown, acc, path, []) == acc
  {
    PlusLaws(acc.totals, Zero(), Zero());
  }

  method BuildReport(m: Matrix, shown: Shown, files: seq<RoundsFile>)
    returns (report: Report, sources: seq<Source>, byField: map<string, nat>)
    ensures report == ReportOf(m, shown, files)
    ensures report.Report? ==> sources == SourcesOf(files) && CountsFields(byField, MissingRows(m, files))
  {
    var acc := Report(0, Zero(), [], []);
    sources, byField := [], map[];
    for i := 0 to |files|
      invariant Built(m, shown, files[..i], acc, sources, byField) && !AnyRaises(m, AllRecords(files[..i]))
    {
      RecordsNext(m, files, i);
      BuiltNext(m, shown, files, i);
      var source;
      acc, source, byField := AddFile(m, shown, acc, byField, MissingRows(m, files[..i]), files[i]);
      if acc.ReportTypeFault? {
        RecordsStay(m, files, i + 1);
        return ReportTypeFault, sources, byField;
      }
      sources := sources + [source];
    }
    assert files[..|files|] == files;
    report := acc.(rows := SortBy(RowLe(shown), acc.rows));
  }

  /** What the file loop has gathered from these files. */
  ghost predicate Built(m: Matrix, shown: Shown, files: seq<RoundsFile>, acc: Report, sources: seq<Source>, byField: map<string, nat>)
  {
    acc == Collected(m, shown, files) && sources == SourcesOf(files) && CountsFields(byField, MissingRows(m, files))
  }

  lemma BuiltNext(m: Matrix, shown: Shown, files: seq<RoundsFile>, i: nat)
    requires i < |files|
    ensures var rs := RecordsIn(files[i]);
      && Collected(m, shown, files[..i + 1]) == Extended(m, shown, Collected(m, shown, files[..i]), files[i].path, rs)
      && SourcesOf(files[..i + 1]) == SourcesOf(files[..i]) + [SourceOf(files[i])]
      && MissingRows(m, files[..i + 1]) == MissingRows(m, files[..i]) + RowsOf(m, rs)
  {
    assert files[..i + 1][..i] == files[..i];
  }

  lemma RecordsNext(m: Matrix, files: seq<RoundsFile>, i: nat)
    requires i < |files|
    ensures AnyRaises(m, AllRecords(files[..i + 1])) <==> AnyRaises(m, AllRecords(files[..i])) || AnyRaises(m, RecordsIn(files[i]))
  {
    assert files[..i + 1][..i] == files[..i];
    assert forall r :: r in AllRecords(files[..i + 1]) <==> r in AllRecords(files[..i]) || r in RecordsIn(files[i]);
  }

  lemma {:induction false} RecordsStay(m: Matrix, files: seq<RoundsFile>, k: nat)
    requires k <= |files| && AnyRaises(m, AllRecords(files[..k]))
    ensures AnyRaises(m, AllRecords(files))
    decreases |files| - k
  {
    if k < |files| {
      RecordsNext(m, files, k);
      RecordsStay(m, files, k + 1);
    } else {
      assert files[..k] == files;
    }
  }

  function SumTagged(rows: seq<(string, MissingRow)>): Tally
  {
    if rows == [] then Zero()
    else Plus(SumTagged(rows[..|rows| - 1]), TallyFor(rows[|rows| - 1].1.zeroOutput, rows[|rows| - 1].1.class_))
  }

  lemma {:induction false} SumTaggedParts(a: seq<(string, MissingRow)>, b: seq<(string, MissingRow)>)
    ensures SumTagged(a + b) == Plus(SumTagged(a), SumTagged(b))
  {
    if b == [] {
      assert a + b == a;
      PlusLaws(SumTagged(a), Zero(), Zero());
    } else {
      var last := b[|b| - 1].1;
      assert (a + b)[..|a + b| - 1] == a + b[..|b| - 1];
      SumTaggedParts(a, b[..|b| - 1]);
      PlusLaws(SumTagged(a), SumTagged(b[..|b| - 1]), TallyFor(last.zeroOutput, last.class_));
    }
  }

  lemma {:induction false} SumOfTagged(source: string, rows: seq<MissingRow>)
    ensures SumTagged(Tagged(source, rows)) == SumRows(rows)
  {
    if rows != [] {
      SumOfTagged(source, rows[..|rows| - 1]);
      var front := Tagged(source, rows[..|rows| - 1]);
      assert Tagged(source, rows)[..|front|] == front;
    }
  }

  /** The accounts of a report close: what it shows adds up to its totals. */
  predicate Closes(report: Report)
    requires report.Report?
  {
    Plus(SumBuckets(report.rows), SumTagged(report.missing)) == report.totals
  }

  lemma ExtendedCloses(m: Matrix, shown: Shown, acc: Report, path: string, rs: seq<Record>)
    requires acc.Report? && Closes(acc)
    ensures Closes(Extended(m, shown, acc, path, rs))
  {
    EveryTimeoutIsCountedOnce(m, shown, path, rs);
    SumOfTagged(path, RowsOf(m, rs));
    Joined(acc.rows, RowsFor(m, shown, path, rs), acc.missing, Tagged(path, RowsOf(m, rs)), acc.totals, TallyOf(m, EveryTimeout, rs));
  }

  lemma Joined(a: seq<Bucket>, b: seq<Bucket>, c: seq<(string, MissingRow)>, d: seq<(string, MissingRow)>, s: Tally, t: Tally)
    requires Plus(SumBuckets(a), SumTagged(c)) == s && Plus(SumBuckets(b), SumTagged(d)) == t
    ensures Plus(SumBuckets(a + b), SumTagged(c + d)) == Plus(s, t)
  {
    SumBucketsParts(a, b);
    SumTaggedParts(c, d);
    PlusPairs(SumBuckets(a), SumBuckets(b), SumTagged(c), SumTagged(d));
  }

  lemma PlusPairs(a: Tally, b: Tally, c: Tally, d: Tally)
    ensures Plus(Plus(a, b), Plus(c, d)) == Plus(Plus(a, c), Plus(b, d))
  {
  }

  lemma {:induction false} CollectedTotals(m: Matrix, shown: Shown, files: seq<RoundsFile>)
    ensures Collected(m, shown, files).records == |AllRecords(files)|
    ensures Collected(m, shown, files).totals == TallyOf(m, EveryTimeout, AllRecords(files))
  {
    if files != [] {
      CollectedTotals(m, shown, files[..|files| - 1]);
      TallyParts(m, EveryTimeout, AllRecords(files[..|files| - 1]), RecordsIn(files[|files| - 1]));
    }
  }

  lemma NothingCloses()
    ensures Closes(Report(0, Zero(), [], []))
  {
    var rows: seq<Bucket>, missing: seq<(string, MissingRow)> := [], [];
    assert SumBuckets(rows) == Zero() && SumTagged(missing) == Zero();
    PlusLaws(Zero(), Zero(), Zero());
  }

  lemma {:induction false} CollectedCloses(m: Matrix, shown: Shown, files: seq<RoundsFile>)
    ensures Closes(Collected(m, shown, files))
  {
    if files == [] {
      NothingCloses();
    } else {
      var front, file := files[..|files| - 1], files[|files| - 1];
      CollectedCloses(m, shown, front);
      ExtendedCloses(m, shown, Collected(m, shown, front), file.path, RecordsIn(file));
    }
  }

  /** The whole report: either some complete timeout record has a list or an object for a key field,
      and the script fails with a TypeError, or the buckets and missing rows it shows together count
      every timeout record of every readable file exactly once. */
  lemma WholeReportCountsOnce(m: Matrix, shown: Shown, files: seq<RoundsFile>)
    ensures var report := ReportOf(m, shown, files);
      && (report.ReportTypeFault? <==> AnyRaises(m, AllRecords(files)))
      && (report.Report? ==>
            && Closes(report) && Balanced(report.totals) && report.records == |AllRecords(files)|
            && report.totals == TallyOf(m, EveryTimeout, AllRecords(files))
            && report.totals.rounds == HowMany(AllRecords(files)))
  {
    SumSorted(RowLe(shown), Collected(m, shown, files).rows);
    CollectedCloses(m, shown, files);
    CollectedTotals(m, shown, files);
    TallyBalanced(m, EveryTimeout, AllRecords(files));
    RoundsAreTimeouts(m, AllRecords(files));
  }

  /** The line section of the script: the report with its own list of variables. */
  method LineSection(shown: Shown, files: seq<RoundsFile>)
    returns (report: Report, sources: seq<Source>, byField: map<string, nat>)
    ensures report == ReportOf(MATRIX_FIELDS, shown, files)
    ensures report.Report? ==>
      && Closes(report) && report.totals.rounds == HowMany(AllRecords(files))
      && sources == SourcesOf(files) && CountsFields(byField, MissingRows(MATRIX_FIELDS, files))
  {
    report, sources, byField := BuildReport(MATRIX_FIELDS, shown, files);
    WholeReportCountsOnce(MATRIX_FIELDS, shown, files);
  }

  /** Any complete timeout record, its session replaced by a list, fails the report it is in. */
  lemma ListAsSessionRaises(m: Matrix, shown: Shown, path: string, r: Record)
    requires IsTimeout(r) && !Lacks(m, r)
    ensures ReportOf(m, shown, [RoundsFile(path, Text.Some([r["seat_session_id" := List([])]]), 0)]).ReportTypeFault?
  {
    var bad := r["seat_session_id" := List([])];
    var files := [RoundsFile(path, Text.Some([bad]), 0)];
    StillComplete(m, r, "seat_session_id", List([]));
    assert files[..0] == [] && AllRecords(files) == [bad];
    assert bad in AllRecords(files) && Raises(m, bad);
  }

  lemma {:induction false} StillComplete(m: Matrix, r: Record, name: string, v: Json)
    requires !Lacks(m, r)
    ensures !Lacks(m, r[name := v])
  {
    if m != [] { StillComplete(m[..|m| - 1], r, name, v); }
  }
}
