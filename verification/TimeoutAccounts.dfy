/** What the timeout report says, in the record fields and literals of the script
    (scripts/turn-timeout-report.py): which records are counted where, and in which order they stand. */
module TimeoutAccounts {
  import opened Dict
  import opened Json
  import opened Sorting
  import opened Timeouts
  import Text

  // ----- the columns --------------------------------------------------------

  datatype Column = Rounds | ZeroOutputs | TrueHangs | CeilingHits | Others

  /** The records a column counts. */
  predicate Shows(column: Column, r: Record)
  {
    match column
    case Rounds => true
    case ZeroOutputs =>
      && "output_evidence" in r && r["output_evidence"].Dict?
      && "zero_output" in r["output_evidence"].fields && r["output_evidence"].fields["zero_output"] == Bool(true)
    case TrueHangs => Says(r, "timeout_class", "true_hang")
    case CeilingHits => Says(r, "timeout_class", "ceiling_hit")
    case Others => !Says(r, "timeout_class", "true_hang") && !Says(r, "timeout_class", "ceiling_hit")
  }

  predicate Says(r: Record, name: string, text: string) { name in r && r[name] == Json.Text(text) }

  predicate Complete(m: Matrix, r: Record) { forall name :: name in m ==> name in r }

  predicate Picked(m: Matrix, c: Choice, r: Record)
  {
    && Says(r, "reason", "worker_turn_timeout")
    && match c
       case EveryTimeout => true
       case Incomplete => !Complete(m, r)
       case InBucket(key) => Complete(m, r) && SameKey(key, r)
  }

  predicate SameKey(key: Key, r: Record)
  {
    && key.0 == KeyOf(Field(r, "seat_session_id")) && key.1 == KeyOf(Field(r, "turn_ordinal"))
    && key.2 == KeyOf(Field(r, "session_age"))
  }

  function NumberOf(m: Matrix, c: Choice, column: Column, rs: seq<Record>): nat
  {
    if rs == [] then 0
    else NumberOf(m, c, column, rs[..|rs| - 1]) + if Picked(m, c, rs[|rs| - 1]) && Shows(column, rs[|rs| - 1]) then 1 else 0
  }

  lemma {:induction false} AbsentIs(r: Record, names: seq<string>, name: string)
    ensures name in Absent(r, names) <==> name in names && name !in r
  {
    if names != [] {
      AbsentIs(r, names[..|names| - 1], name);
      assert name in names <==> name in names[..|names| - 1] || name == names[|names| - 1];
    }
  }

  lemma CompleteIs(m: Matrix, r: Record)
    ensures Lacks(m, r) <==> !Complete(m, r)
  {
    if Lacks(m, r) { AbsentIs(r, m, Absent(r, m)[0]); }
    forall name | name in m ensures name !in r ==> Lacks(m, r) { AbsentIs(r, m, name); }
  }

  lemma PickedIs(m: Matrix, c: Choice, r: Record)
    ensures Chosen(m, c, r) <==> Picked(m, c, r)
  {
    CompleteIs(m, r);
  }

  /** Each counter of the report, of a bucket and of the rows of missing variables is the number of
      the records its column shows: hangs are the records that say true_hang, ceiling hits those
      that say ceiling_hit, and zero outputs those whose evidence says so. */
  lemma {:induction false} TallyIs(m: Matrix, c: Choice, rs: seq<Record>)
    ensures TallyOf(m, c, rs) == Tally(NumberOf(m, c, Rounds, rs), NumberOf(m, c, ZeroOutputs, rs), NumberOf(m, c, TrueHangs, rs),
                                       NumberOf(m, c, CeilingHits, rs), NumberOf(m, c, Others, rs))
  {
    if rs != [] {
      TallyIs(m, c, rs[..|rs| - 1]);
      PickedIs(m, c, rs[|rs| - 1]);
    }
  }

  /** What one key stands for: a number is the same key as an integer and as a fraction, True and
      False are 1 and 0, and every other value only itself. */
  lemma KeysAre(n: int, x: real, a: Json, b: Json)
    ensures KeyOf(Int(n)) == KeyOf(Float(x)) <==> n as real == x
    ensures KeyOf(Bool(true)) == KeyOf(Int(1)) && KeyOf(Bool(false)) == KeyOf(Int(0))
    ensures a.Null? || a.Text? || a.List? || a.Dict? ==> (KeyOf(a) == KeyOf(b) <==> a == b)
  {
  }

  // ----- the rows -----------------------------------------------------------

  lemma {:induction false} AbsentParts(r: Record, a: seq<string>, b: seq<string>)
    ensures Absent(r, a + b) == Absent(r, a) + Absent(r, b)
  {
    if b == [] {
      assert a + b == a;
    } else {
      assert (a + b)[..|a + b| - 1] == a + b[..|b| - 1];
      AbsentParts(r, a, b[..|b| - 1]);
    }
  }

  lemma {:induction false} RowsParts(m: Matrix, a: seq<Record>, b: seq<Record>)
    ensures RowsOf(m, a + b) == RowsOf(m, a) + RowsOf(m, b)
  {
    if b == [] {
      assert a + b == a;
    } else {
      assert (a + b)[..|a + b| - 1] == a + b[..|b| - 1];
      RowsParts(m, a, b[..|b| - 1]);
    }
  }

  /** One record gives one row if it is a timeout that lacks a variable, and none otherwise; the row
      has the record's round, its absent variables, its output and its class. */
  lemma RowOfOne(m: Matrix, r: Record)
    ensures var rows := RowsOf(m, [r]);
      && (rows != [] <==> Says(r, "reason", "worker_turn_timeout") && !Complete(m, r))
      && (rows != [] ==>
            && |rows| == 1 && rows[0].round == Field(r, "round") && rows[0].zeroOutput == Shows(ZeroOutputs, r)
            && (rows[0].class_.TrueHang? <==> Shows(TrueHangs, r)) && (rows[0].class_.CeilingHit? <==> Shows(CeilingHits, r))
            && forall name :: name in rows[0].missing <==> name in m && name !in r)
  {
    CompleteIs(m, r);
    assert RowsOf(m, [r][..0]) == [];
    forall name ensures name in Absent(r, m) <==> name in m && name !in r { AbsentIs(r, m, name); }
  }

  /** The seat or model a bucket shows: the first that is not null among the records it counts. */
  lemma {:induction false} FirstSeenIs(m: Matrix, c: Choice, rs: seq<Record>, name: string)
    ensures var v := FirstSeen(m, c, rs, name);
      if v == Null then forall r :: r in rs && Picked(m, c, r) ==> Field(r, name) == Null
      else exists i :: 0 <= i < |rs| && FirstAt(m, c, rs, name, i) && Field(rs[i], name) == v
  {
    if rs != [] {
      var front, r := rs[..|rs| - 1], rs[|rs| - 1];
      FirstSeenIs(m, c, front, name);
      PickedIs(m, c, r);
      if FirstSeen(m, c, front, name) != Null {
        var i :| 0 <= i < |front| && FirstAt(m, c, front, name, i) && Field(front[i], name) == FirstSeen(m, c, front, name);
        assert FirstAt(m, c, rs, name, i);
      } else if FirstSeen(m, c, rs, name) != Null {
        assert FirstAt(m, c, rs, name, |front|);
      }
    }
  }

  predicate FirstAt(m: Matrix, c: Choice, rs: seq<Record>, name: string, i: nat)
    requires i < |rs|
  {
    Picked(m, c, rs[i]) && Field(rs[i], name) != Null
    && forall j :: 0 <= j < i ==> !Picked(m, c, rs[j]) || Field(rs[j], name) == Null
  }

  /** The TypeError: a complete timeout record holds a list or an object where a key is to be. */
  lemma RaisesIs(m: Matrix, r: Record)
    ensures Raises(m, r) <==>
      && Says(r, "reason", "worker_turn_timeout") && Complete(m, r)
      && (Contains(r, "seat_session_id") || Contains(r, "turn_ordinal") || Contains(r, "session_age"))
  {
    CompleteIs(m, r);
  }

  predicate Contains(r: Record, name: string) { name in r && (r[name].List? || r[name].Dict?) }

  // ----- their order --------------------------------------------------------

  /** One list of texts is before another, or they are equal: the first texts that differ decide. */
  predicate Before(a: seq<string>, b: seq<string>)
    requires |a| == |b|
  {
    a == b || exists k :: 0 <= k < |a| && DecidesAt(a, b, k)
  }

  predicate DecidesAt(a: seq<string>, b: seq<string>, k: nat)
    requires |a| == |b| && k < |a|
  {
    a[..k] == b[..k] && a[k] != b[k] && Text.StrLe(a[k], b[k])
  }

  lemma {:induction false} TupleLeIs(a: seq<string>, b: seq<string>)
    requires |a| == |b|
    ensures TupleLe(a, b) <==> Before(a, b)
  {
    if a != [] {
      TupleLeIs(a[1..], b[1..]);
      assert a == [a[0]] + a[1..] && b == [b[0]] + b[1..];
      if a[0] != b[0] {
        assert Before(a, b) ==> DecidesAt(a, b, 0);
        if Text.StrLe(a[0], b[0]) { assert DecidesAt(a, b, 0); }
      } else {
        if a[1..] != b[1..] && Before(a[1..], b[1..]) {
          var k :| 0 <= k < |a[1..]| && DecidesAt(a[1..], b[1..], k);
          assert DecidesAt(a, b, k + 1);
        }
        if a != b && Before(a, b) {
          var k :| 0 <= k < |a| && DecidesAt(a, b, k);
          assert a[1..][..k - 1] == a[..k][1..] && b[1..][..k - 1] == b[..k][1..];
          assert DecidesAt(a[1..], b[1..], k - 1);
        }
      }
    }
  }

  lemma {:induction false} TupleLeTotal(a: seq<string>, b: seq<string>)
    ensures TupleLe(a, b) || TupleLe(b, a)
  {
    if a != [] && b != [] {
      Text.StrLeTotal(a[0], b[0]);
      TupleLeTotal(a[1..], b[1..]);
    }
  }

  lemma {:induction false} TupleLeTransitive(a: seq<string>, b: seq<string>, c: seq<string>)
    requires TupleLe(a, b) && TupleLe(b, c)
    ensures TupleLe(a, c)
  {
    if a != [] {
      if Text.StrLe(a[0], b[0]) && Text.StrLe(b[0], c[0]) { Text.StrLeTransitive(a[0], b[0], c[0]); }
      if a[0] == b[0] == c[0] {
        TupleLeTransitive(a[1..], b[1..], c[1..]);
      } else if a[0] == c[0] {
        Text.StrLeAntisymmetric(a[0], b[0]);
      }
    }
  }

  lemma RowOrder(shown: Shown)
    ensures TotalPreorder(RowLe(shown))
  {
    var le := RowLe(shown);
    forall a, b ensures le(a, b) || le(b, a) { TupleLeTotal(RowKey(shown, a), RowKey(shown, b)); }
    forall a, b, c | le(a, b) && le(b, c) ensures le(a, c) {
      TupleLeTransitive(RowKey(shown, a), RowKey(shown, b), RowKey(shown, c));
    }
  }

  lemma OrderedRows(shown: Shown, bs: seq<Bucket>, i: nat, j: nat)
    requires i < j < |SortBy(RowLe(shown), bs)|
    ensures var rows := SortBy(RowLe(shown), bs);
      Before([rows[i].source, shown(rows[i].session), shown(rows[i].ordinal), shown(rows[i].age)],
             [rows[j].source, shown(rows[j].session), shown(rows[j].ordinal), shown(rows[j].age)])
  {
    RowOrder(shown);
    SortBySorted(RowLe(shown), bs);
    var rows := SortBy(RowLe(shown), bs);
    assert RowLe(shown)(rows[i], rows[j]);
    TupleLeIs(RowKey(shown, rows[i]), RowKey(shown, rows[j]));
  }

  /** The rows of a file are its buckets, ordered by source, session, ordinal and age as texts. */
  lemma RowsAreOrdered(m: Matrix, shown: Shown, source: string, rs: seq<Record>, i: nat, j: nat)
    requires i < j < |RowsFor(m, shown, source, rs)|
    ensures var rows := RowsFor(m, shown, source, rs);
      && multiset(rows) == multiset(Values(BucketsOf(m, source, rs)))
      && Before([rows[i].source, shown(rows[i].session), shown(rows[i].ordinal), shown(rows[i].age)],
                [rows[j].source, shown(rows[j].session), shown(rows[j].ordinal), shown(rows[j].age)])
  {
    OrderedRows(shown, Values(BucketsOf(m, source, rs)), i, j);
  }

  // ----- over all files -----------------------------------------------------

  lemma {:induction false} TaggedIs(source: string, rows: seq<MissingRow>, k: nat)
    ensures |Tagged(source, rows)| == |rows| && (k < |rows| ==> Tagged(source, rows)[k] == (source, rows[k]))
  {
    if rows != [] { TaggedIs(source, rows[..|rows| - 1], k); }
  }

  /** Each source's line: the file, and if it could be read, its records, its timeouts and the lines
      that were none. */
  lemma {:induction false} SourcesAre(m: Matrix, files: seq<RoundsFile>, k: nat)
    ensures |SourcesOf(files)| == |files|
    ensures k < |files| && files[k].records.None? ==> SourcesOf(files)[k] == Unreadable(files[k].path)
    ensures k < |files| && files[k].records.Some? ==>
      var rs := files[k].records.value;
      SourcesOf(files)[k] == Source(files[k].path, |rs|, NumberOf(m, EveryTimeout, Rounds, rs), files[k].unparsable)
  {
    if files != [] { SourcesAre(m, files[..|files| - 1], k); }
    if k < |files| && files[k].records.Some? {
      RoundsAreTimeouts(m, files[k].records.value);
      TallyIs(m, EveryTimeout, files[k].records.value);
    }
  }

  /** What the files give: each readable file its rows and, under its own path, its rows of missing
      variables. */
  lemma GatheredAre(m: Matrix, shown: Shown, front: seq<RoundsFile>, file: RoundsFile)
    ensures var before, all := Collected(m, shown, front), Collected(m, shown, front + [file]);
      match file.records
      case None => all == before
      case Some(rs) =>
        && all.missing == before.missing + Tagged(file.path, RowsOf(m, rs))
        && all.rows == before.rows + RowsFor(m, shown, file.path, rs)
  {
    assert (front + [file])[..|front|] == front;
    AddedNothing(m, shown, Collected(m, shown, front), file.path);
  }

  /** The report shows all of them, its rows in one order. */
  lemma ReportIsOrdered(m: Matrix, shown: Shown, files: seq<RoundsFile>, i: nat, j: nat)
    requires ReportOf(m, shown, files).Report? && i < j < |ReportOf(m, shown, files).rows|
    ensures var rows := ReportOf(m, shown, files).rows;
      && ReportOf(m, shown, files).missing == Collected(m, shown, files).missing
      && multiset(rows) == multiset(Collected(m, shown, files).rows)
      && Before([rows[i].source, shown(rows[i].session), shown(rows[i].ordinal), shown(rows[i].age)],
                [rows[j].source, shown(rows[j].session), shown(rows[j].ordinal), shown(rows[j].age)])
  {
    OrderedRows(shown, Collected(m, shown, files).rows, i, j);
  }
}
