/** The strict decoder of worker turn reports (src/fleet_graph/work_report.py). */
module WorkReport {
  import opened Json
  import opened Text
  import RateHeader

  const SCHEMA_VERSION := "fleet-graph.worker-turn-report/v1"
  const OUTCOMES: set<string> := {"completed", "blocked", "failed"}
  const CHANGES: set<string> := {"created", "modified", "deleted", "unchanged"}
  const MEDIA_TYPES: set<string> := {"text/plain", "text/markdown"}
  const CONTROL_FIELDS: set<string> :=
    {"schema_version", "turn_id", "outcome", "summary", "did", "files", "self_tests", "blocker"}
  const REPORT_FIELDS: set<string> := CONTROL_FIELDS + {"prose_attachment"}

  const TURN_ID_MAX_CHARS := 256
  const SUMMARY_MAX_CHARS := 8000
  const DID_MAX_ITEMS := 1024
  const DID_ITEM_MAX_CHARS := 8000
  const FILES_MAX_ITEMS := 4096
  const PATH_MAX_CHARS := 4096
  const SELF_TESTS_MAX_ITEMS := 1024
  const ARGV_MAX_ITEMS := 256
  const ARGV_ITEM_MAX_CHARS := 4096
  const BLOCKER_KIND_MAX_CHARS := 256
  const BLOCKER_DETAIL_MAX_CHARS := 8000
  const ATTACHMENT_CONTENT_MAX_CHARS := 200_000

  /** The kinds of ReportProtocolError, and the TypeError the decoder lets through. */
  datatype Failure = Missing | SchemaInvalid | UnsupportedVersion | Malformed | Truncated | TypeFault

  // ----- what a good report is ----------------------------------------------

  predicate Prose(v: Json, max: nat) { v.Text? && Strip(v.text) != "" && |v.text| <= max }

  predicate GoodPath(v: Json) { Prose(v, PATH_MAX_CHARS) && !StartsWith(v.text, "/") }

  predicate IsFile(v: Json)
  {
    && v.Dict? && v.fields.Keys == {"path", "change"}
    && GoodPath(v.fields["path"]) && v.fields["change"].Text? && v.fields["change"].text in CHANGES
  }

  predicate IsArgument(v: Json) { v.Text? && |v.text| <= ARGV_ITEM_MAX_CHARS }

  predicate IsArgv(v: Json)
  {
    v.List? && 1 <= |v.items| <= ARGV_MAX_ITEMS && forall p :: p in v.items ==> IsArgument(p)
  }

  predicate IsSelfTest(v: Json)
  {
    && v.Dict? && v.fields.Keys == {"argv", "exit_code"}
    && IsArgv(v.fields["argv"]) && v.fields["exit_code"].Int? && v.fields["exit_code"].number >= 0
  }

  predicate IsBlocker(v: Json)
  {
    && v.Dict? && v.fields.Keys == {"kind", "detail"}
    && Prose(v.fields["kind"], BLOCKER_KIND_MAX_CHARS) && Prose(v.fields["detail"], BLOCKER_DETAIL_MAX_CHARS)
  }

  predicate BlockerFits(outcome: string, v: Json)
  {
    if outcome == "completed" then v.Null?
    else if outcome == "blocked" then IsBlocker(v)
    else v.Null? || IsBlocker(v)
  }

  predicate IsAttachment(v: Json)
  {
    && v.Dict? && v.fields.Keys == {"media_type", "content"}
    && v.fields["media_type"].Text? && v.fields["media_type"].text in MEDIA_TYPES
    && v.fields["content"].Text? && |v.fields["content"].text| <= ATTACHMENT_CONTENT_MAX_CHARS
  }

  predicate IsDid(v: Json) { v.List? && |v.items| <= DID_MAX_ITEMS && forall x :: x in v.items ==> Prose(x, DID_ITEM_MAX_CHARS) }

  predicate IsFiles(v: Json) { v.List? && |v.items| <= FILES_MAX_ITEMS && forall x :: x in v.items ==> IsFile(x) }

  predicate IsSelfTests(v: Json) { v.List? && |v.items| <= SELF_TESTS_MAX_ITEMS && forall x :: x in v.items ==> IsSelfTest(x) }

  predicate IsReport(o: Object)
  {
    && CONTROL_FIELDS <= o.Keys <= REPORT_FIELDS
    && o["schema_version"] == Text(SCHEMA_VERSION)
    && o["outcome"].Text? && o["outcome"].text in OUTCOMES
    && Prose(o["turn_id"], TURN_ID_MAX_CHARS) && Prose(o["summary"], SUMMARY_MAX_CHARS)
    && IsDid(o["did"]) && IsFiles(o["files"]) && IsSelfTests(o["self_tests"])
    && BlockerFits(o["outcome"].text, o["blocker"])
    && ("prose_attachment" in o ==> IsAttachment(o["prose_attachment"]))
  }

  // ----- the decoder --------------------------------------------------------

  method NonemptyBounded(o: Object, key: string, max: nat) returns (r: Result<Json, Failure>)
    ensures r == if key !in o then Err(Missing) else if Prose(o[key], max) then Ok(o[key]) else Err(SchemaInvalid)
  {
    if key !in o { return Err(Missing); }
    var value := o[key];
    if !value.Text? { return Err(SchemaInvalid); }
    if Strip(value.text) == "" { return Err(SchemaInvalid); }
    if |value.text| > max { return Err(SchemaInvalid); }
    r := Ok(value);
  }

  method Did(o: Object) returns (r: Result<Json, Failure>)
    ensures r == if "did" !in o then Err(Missing) else if IsDid(o["did"]) then Ok(o["did"]) else Err(SchemaInvalid)
  {
    if "did" !in o { return Err(Missing); }
    var did := o["did"];
    if !did.List? || |did.items| > DID_MAX_ITEMS { return Err(SchemaInvalid); }
    var items := [];
    for i := 0 to |did.items|
      invariant items == did.items[..i]
      invariant forall j :: 0 <= j < i ==> Prose(did.items[j], DID_ITEM_MAX_CHARS)
    {
      var entry := did.items[i];
      if !entry.Text? || Strip(entry.text) == "" || |entry.text| > DID_ITEM_MAX_CHARS {
        assert entry in did.items && !Prose(entry, DID_ITEM_MAX_CHARS);
        return Err(SchemaInvalid);
      }
      items := items + [entry];
    }
    assert items == did.items;
    r := Ok(List(items));
  }

  /** One file entry: whatever is wrong with its shape or path comes before its change. */
  function FileProblem(v: Json): Option<Failure>
  {
    if !v.Dict? || v.fields.Keys != {"path", "change"} || !GoodPath(v.fields["path"]) then Some(SchemaInvalid)
    else if !Hashable(v.fields["change"]) then Some(TypeFault)
    else if v.fields["change"].Text? && v.fields["change"].text in CHANGES then None
    else Some(SchemaInvalid)
  }

  function FirstProblem(files: seq<Json>): Option<Failure>
  {
    if files == [] then None
    else
      var p := FirstProblem(files[..|files| - 1]);
      if p.Some? then p else FileProblem(files[|files| - 1])
  }

  lemma NoFileProblem(v: Json)
    ensures FileProblem(v) == None <==> IsFile(v)
    ensures FileProblem(v) in {None, Some(SchemaInvalid), Some(TypeFault)}
  {
  }

  lemma {:induction false} NoProblem(files: seq<Json>)
    ensures FirstProblem(files) == None <==> forall x :: x in files ==> IsFile(x)
    ensures FirstProblem(files) in {None, Some(SchemaInvalid), Some(TypeFault)}
  {
    if files != [] {
      NoProblem(files[..|files| - 1]);
      NoFileProblem(files[|files| - 1]);
      assert forall x :: x in files <==> x in files[..|files| - 1] || x == files[|files| - 1];
    }
  }

  lemma {:induction false} ProblemStays(files: seq<Json>, i: nat)
    requires i <= |files| && FirstProblem(files[..i]).Some?
    ensures FirstProblem(files) == FirstProblem(files[..i])
    decreases |files|
  {
    if i < |files| {
      assert files[..|files| - 1][..i] == files[..i];
      ProblemStays(files[..|files| - 1], i);
    } else {
      assert files[..i] == files;
    }
  }

  method Files(o: Object) returns (r: Result<Json, Failure>)
    ensures r == if "files" !in o then Err(Missing)
                 else if !o["files"].List? || |o["files"].items| > FILES_MAX_ITEMS then Err(SchemaInvalid)
                 else match FirstProblem(o["files"].items) case None => Ok(o["files"]) case Some(f) => Err(f)
  {
    if "files" !in o { return Err(Missing); }
    r := CheckFiles(o["files"]);
  }

  method CheckFiles(files: Json) returns (r: Result<Json, Failure>)
    ensures r == if !files.List? || |files.items| > FILES_MAX_ITEMS then Err(SchemaInvalid)
                 else match FirstProblem(files.items) case None => Ok(files) case Some(f) => Err(f)
  {
    if !files.List? || |files.items| > FILES_MAX_ITEMS { return Err(SchemaInvalid); }
    var result := [];
    for i := 0 to |files.items|
      invariant result == files.items[..i]
      invariant FirstProblem(files.items[..i]) == None
    {
      assert files.items[..i + 1][..i] == files.items[..i];
      var entry := CheckFile(files.items[i]);
      if entry.Err? {
        ProblemStays(files.items, i + 1);
        return Err(entry.error);
      }
      result := result + [entry.value];
    }
    assert files.items[..|files.items|] == files.items;
    r := Ok(List(result));
  }

  method CheckFile(entry: Json) returns (r: Result<Json, Failure>)
    ensures r == match FileProblem(entry) case None => Ok(entry) case Some(f) => Err(f)
  {
    if !entry.Dict? || entry.fields.Keys != {"path", "change"} { return Err(SchemaInvalid); }
    var path := entry.fields["path"];
    if !path.Text? || Strip(path.text) == "" || |path.text| > PATH_MAX_CHARS { return Err(SchemaInvalid); }
    if StartsWith(path.text, "/") { return Err(SchemaInvalid); }
    var change := entry.fields["change"];
    if !Hashable(change) { return Err(TypeFault); }
    if !change.Text? || change.text !in CHANGES { return Err(SchemaInvalid); }
    assert entry.fields == map["path" := path, "change" := change];
    r := Ok(Dict(map["path" := path, "change" := change]));
  }

  method CheckSelfTest(entry: Json) returns (r: Result<Json, Failure>)
    ensures r == if IsSelfTest(entry) then Ok(entry) else Err(SchemaInvalid)
  {
    if !entry.Dict? || entry.fields.Keys != {"argv", "exit_code"} { return Err(SchemaInvalid); }
    var argv := entry.fields["argv"];
    if !argv.List? || argv.items == [] || |argv.items| > ARGV_MAX_ITEMS { return Err(SchemaInvalid); }
    var parts := [];
    for i := 0 to |argv.items|
      invariant parts == argv.items[..i]
      invariant forall j :: 0 <= j < i ==> IsArgument(argv.items[j])
    {
      var part := argv.items[i];
      if !part.Text? || |part.text| > ARGV_ITEM_MAX_CHARS {
        assert part in argv.items && !IsArgument(part);
        return Err(SchemaInvalid);
      }
      parts := parts + [part];
    }
    assert parts == argv.items && IsArgv(argv);
    var exitCode := entry.fields["exit_code"];
    if !exitCode.Int? || exitCode.number < 0 { return Err(SchemaInvalid); }
    assert entry.fields == map["argv" := List(parts), "exit_code" := exitCode];
    r := Ok(Dict(map["argv" := List(parts), "exit_code" := exitCode]));
  }

  method SelfTests(o: Object) returns (r: Result<Json, Failure>)
    ensures r == if "self_tests" !in o then Err(Missing)
                 else if IsSelfTests(o["self_tests"]) then Ok(o["self_tests"]) else Err(SchemaInvalid)
  {
    if "self_tests" !in o { return Err(Missing); }
    r := CheckSelfTests(o["self_tests"]);
  }

  method CheckSelfTests(tests: Json) returns (r: Result<Json, Failure>)
    ensures r == if IsSelfTests(tests) then Ok(tests) else Err(SchemaInvalid)
  {
    if !tests.List? || |tests.items| > SELF_TESTS_MAX_ITEMS { return Err(SchemaInvalid); }
    var result := [];
    for i := 0 to |tests.items|
      invariant result == tests.items[..i]
      invariant forall j :: 0 <= j < i ==> IsSelfTest(tests.items[j])
    {
      var entry := CheckSelfTest(tests.items[i]);
      if entry.Err? {
        assert tests.items[i] in tests.items;
        return entry;
      }
      result := result + [entry.value];
    }
    assert result == tests.items;
    r := Ok(List(result));
  }

  method Blocker(o: Object, outcome: string) returns (r: Result<Json, Failure>)
    requires outcome in OUTCOMES
    ensures r == if "blocker" !in o then Err(Missing)
                 else if BlockerFits(outcome, o["blocker"]) then Ok(o["blocker"]) else Err(SchemaInvalid)
  {
    if "blocker" !in o { return Err(Missing); }
    var blocker := o["blocker"];
    if outcome == "completed" {
      return if blocker != Null then Err(SchemaInvalid) else Ok(Null);
    }
    if blocker == Null {
      return if outcome == "blocked" then Err(SchemaInvalid) else Ok(Null);
    }
    if !blocker.Dict? || blocker.fields.Keys != {"kind", "detail"} { return Err(SchemaInvalid); }
    var kind, detail := blocker.fields["kind"], blocker.fields["detail"];
    if !kind.Text? || Strip(kind.text) == "" || |kind.text| > BLOCKER_KIND_MAX_CHARS { return Err(SchemaInvalid); }
    if !detail.Text? || Strip(detail.text) == "" || |detail.text| > BLOCKER_DETAIL_MAX_CHARS { return Err(SchemaInvalid); }
    assert blocker.fields == map["kind" := kind, "detail" := detail];
    r := Ok(Dict(map["kind" := kind, "detail" := detail]));
  }

  method ValidateAttachment(mediaType: Json, content: Json) returns (r: Result<Json, Failure>)
    ensures r == if !Hashable(mediaType) then Err(TypeFault)
                 else if IsAttachment(Dict(map["media_type" := mediaType, "content" := content]))
                 then Ok(Dict(map["media_type" := mediaType, "content" := content]))
                 else Err(SchemaInvalid)
  {
    if !Hashable(mediaType) { return Err(TypeFault); }
    if !mediaType.Text? || mediaType.text !in MEDIA_TYPES { return Err(SchemaInvalid); }
    if !content.Text? || |content.text| > ATTACHMENT_CONTENT_MAX_CHARS { return Err(SchemaInvalid); }
    r := Ok(Dict(map["media_type" := mediaType, "content" := content]));
  }

  function AttachmentProblem(v: Json): Option<Failure>
  {
    if !v.Dict? || v.fields.Keys != {"media_type", "content"} then Some(SchemaInvalid)
    else if !Hashable(v.fields["media_type"]) then Some(TypeFault)
    else if IsAttachment(v) then None
    else Some(SchemaInvalid)
  }

  method ProseAttachment(o: Object) returns (r: Result<Json, Failure>)
    requires "prose_attachment" in o
    ensures r == match AttachmentProblem(o["prose_attachment"]) case None => Ok(o["prose_attachment"]) case Some(f) => Err(f)
  {
    var attachment := o["prose_attachment"];
    if !attachment.Dict? || attachment.fields.Keys != {"media_type", "content"} { return Err(SchemaInvalid); }
    assert attachment.fields == map["media_type" := attachment.fields["media_type"], "content" := attachment.fields["content"]];
    r := ValidateAttachment(attachment.fields["media_type"], attachment.fields["content"]);
  }

  // ----- the first failure --------------------------------------------------

  function TextProblem(o: Object, key: string, max: nat): Option<Failure>
  {
    if key !in o then Some(Missing) else if Prose(o[key], max) then None else Some(SchemaInvalid)
  }

  function HeadProblem(o: Object): Option<Failure>
  {
    if !(o.Keys <= REPORT_FIELDS) then Some(SchemaInvalid)
    else if "schema_version" !in o then Some(Missing)
    else if !o["schema_version"].Text? then Some(SchemaInvalid)
    else if o["schema_version"].text != SCHEMA_VERSION then Some(UnsupportedVersion)
    else if "outcome" !in o then Some(Missing)
    else if o["outcome"].Text? && o["outcome"].text in OUTCOMES then None
    else Some(SchemaInvalid)
  }

  function FilesProblem(o: Object): Option<Failure>
  {
    if "files" !in o then Some(Missing)
    else if !o["files"].List? || |o["files"].items| > FILES_MAX_ITEMS then Some(SchemaInvalid)
    else FirstProblem(o["files"].items)
  }

  function AttachedProblem(o: Object): Option<Failure>
  {
    if "prose_attachment" in o then AttachmentProblem(o["prose_attachment"]) else None
  }

  function ShapeProblem(o: Object, key: string, good: bool): Option<Failure>
  {
    if key !in o then Some(Missing) else if good then None else Some(SchemaInvalid)
  }

  function Or(p: Option<Failure>, q: Option<Failure>): Option<Failure> { if p.Some? then p else q }

  /** The decoder stops at the first failure, in this order. */
  function Problem(o: Object): Option<Failure>
  {
    var head := HeadProblem(o);
    if head.Some? then head
    else
      Or(TextProblem(o, "turn_id", TURN_ID_MAX_CHARS),
      Or(TextProblem(o, "summary", SUMMARY_MAX_CHARS),
      Or(ShapeProblem(o, "did", "did" in o && IsDid(o["did"])),
      Or(FilesProblem(o),
      Or(ShapeProblem(o, "self_tests", "self_tests" in o && IsSelfTests(o["self_tests"])),
      Or(ShapeProblem(o, "blocker", "blocker" in o && BlockerFits(o["outcome"].text, o["blocker"])),
         AttachedProblem(o)))))))
  }

  method DecodeObject(o: Object) returns (r: Result<Json, Failure>)
    ensures r == match Problem(o) case None => Ok(Dict(o)) case Some(f) => Err(f)
  {
    if !(o.Keys <= REPORT_FIELDS) { return Err(SchemaInvalid); }
    if "schema_version" !in o { return Err(Missing); }
    if !o["schema_version"].Text? { return Err(SchemaInvalid); }
    if o["schema_version"].text != SCHEMA_VERSION { return Err(UnsupportedVersion); }
    if "outcome" !in o { return Err(Missing); }
    if !o["outcome"].Text? || o["outcome"].text !in OUTCOMES { return Err(SchemaInvalid); }
    r := DecodeFields(o);
  }

  method DecodeFields(o: Object) returns (r: Result<Json, Failure>)
    requires HeadProblem(o) == None
    ensures r == match Problem(o) case None => Ok(Dict(o)) case Some(f) => Err(f)
  {
    var turnId := NonemptyBounded(o, "turn_id", TURN_ID_MAX_CHARS);
    if turnId.Err? { return turnId; }
    var summary := NonemptyBounded(o, "summary", SUMMARY_MAX_CHARS);
    if summary.Err? { return summary; }
    var did := Did(o);
    if did.Err? { return did; }
    var files := Files(o);
    if files.Err? { return files; }
    var tests := SelfTests(o);
    if tests.Err? { return tests; }
    var blocker := Blocker(o, o["outcome"].text);
    if blocker.Err? { return blocker; }
    var control := Assembled(o, turnId.value, summary.value, did.value, files.value, tests.value, blocker.value);
    r := WithAttachment(o, control);
  }

  method Assembled(o: Object, turnId: Json, summary: Json, did: Json, files: Json, tests: Json, blocker: Json) returns (control: Object)
    requires CONTROL_FIELDS <= o.Keys && o["schema_version"] == Text(SCHEMA_VERSION)
    requires turnId == o["turn_id"] && summary == o["summary"] && did == o["did"] && files == o["files"]
    requires tests == o["self_tests"] && blocker == o["blocker"]
    ensures control.Keys == CONTROL_FIELDS && forall k :: k in control ==> control[k] == o[k]
  {
    control := map[
      "schema_version" := Text(SCHEMA_VERSION), "turn_id" := turnId, "outcome" := o["outcome"],
      "summary" := summary, "did" := did, "files" := files, "self_tests" := tests, "blocker" := blocker];
  }

  method WithAttachment(o: Object, control: Object) returns (r: Result<Json, Failure>)
    requires control.Keys == CONTROL_FIELDS <= o.Keys <= REPORT_FIELDS && forall k :: k in control ==> control[k] == o[k]
    ensures r == match AttachedProblem(o) case None => Ok(Dict(o)) case Some(f) => Err(f)
  {
    var report := control;
    if "prose_attachment" in o {
      var attachment := ProseAttachment(o);
      if attachment.Err? { return attachment; }
      report := report["prose_attachment" := attachment.value];
    }
    assert report == o;
    r := Ok(Dict(report));
  }

  // ----- a strict partial identity ------------------------------------------

  /** A report object is accepted exactly when it is a report; DecodeObject then hands back the very
      object, so decoding what was decoded changes nothing. */
  lemma AcceptedIsReport(o: Object)
    ensures Problem(o) == None <==> IsReport(o)
  {
    if "files" in o && o["files"].List? { NoProblem(o["files"].items); }
    if "prose_attachment" in o { assert IsAttachment(o["prose_attachment"]) <==> AttachmentProblem(o["prose_attachment"]) == None; }
  }

  /** The first file entry that raises is well shaped, after good ones only. */
  predicate ChangeRaises(files: seq<Json>, i: nat)
    requires i < |files|
  {
    && (forall j :: 0 <= j < i ==> IsFile(files[j]))
    && files[i].Dict? && files[i].fields.Keys == {"path", "change"}
    && GoodPath(files[i].fields["path"]) && !Hashable(files[i].fields["change"])
  }

  lemma {:induction false} FilesRaise(files: seq<Json>)
    ensures FirstProblem(files) == Some(TypeFault) <==> exists i :: 0 <= i < |files| && ChangeRaises(files, i)
  {
    if files != [] {
      var front := files[..|files| - 1];
      FilesRaise(front);
      NoProblem(front);
      assert forall i :: 0 <= i < |front| ==> (ChangeRaises(files, i) <==> ChangeRaises(front, i));
      assert ChangeRaises(files, |front|) <==> FirstProblem(front) == None && FileProblem(files[|front|]) == Some(TypeFault) by {
        assert forall j :: 0 <= j < |front| ==> files[j] == front[j] && files[j] in front;
      }
    }
  }

  /** The documentation promises ReportProtocolError for every violation; a TypeError comes out
      instead exactly when all that is checked before is in order and a change of a file or the
      media type of the prose is a list or an object. */
  lemma RaisesTypeError(o: Object)
    ensures Problem(o) == Some(TypeFault)
      <==> && HeadProblem(o) == None
           && "turn_id" in o && Prose(o["turn_id"], TURN_ID_MAX_CHARS)
           && "summary" in o && Prose(o["summary"], SUMMARY_MAX_CHARS)
           && "did" in o && IsDid(o["did"])
           && "files" in o && o["files"].List? && |o["files"].items| <= FILES_MAX_ITEMS
           && ((exists i :: 0 <= i < |o["files"].items| && ChangeRaises(o["files"].items, i))
               || (&& IsFiles(o["files"])
                   && "self_tests" in o && IsSelfTests(o["self_tests"])
                   && "blocker" in o && BlockerFits(o["outcome"].text, o["blocker"])
                   && "prose_attachment" in o && MediaTypeRaises(o["prose_attachment"])))
  {
    if "files" in o && o["files"].List? {
      FilesRaise(o["files"].items);
      NoProblem(o["files"].items);
    }
    if "prose_attachment" in o {
      var v := o["prose_attachment"];
      assert MediaTypeRaises(v) <==> AttachmentProblem(v) == Some(TypeFault);
    }
  }

  /** Any report that would be accepted, its files replaced by one whose change is a list. */
  lemma ListAsChangeRaises(o: Object, path: Json)
    requires IsReport(o) && GoodPath(path)
    ensures Problem(o["files" := List([Dict(map["path" := path, "change" := List([])])])]) == Some(TypeFault)
  {
    var entry := Dict(map["path" := path, "change" := List([])]);
    var bad := o["files" := List([entry])];
    AcceptedIsReport(o);
    assert [entry][..0] == [];
    assert FileProblem(entry) == Some(TypeFault) && FirstProblem([entry]) == Some(TypeFault);
    assert forall k :: k in o && k != "files" ==> k in bad && bad[k] == o[k];
    SameHead(o, bad);
  }

  lemma SameHead(o: Object, bad: Object)
    requires IsReport(o) && bad.Keys == o.Keys && forall k :: k in o && k != "files" ==> bad[k] == o[k]
    ensures HeadProblem(bad) == None
    ensures TextProblem(bad, "turn_id", TURN_ID_MAX_CHARS) == None && TextProblem(bad, "summary", SUMMARY_MAX_CHARS) == None
    ensures "did" in bad && IsDid(bad["did"])
  {
  }

  predicate MediaTypeRaises(v: Json)
  {
    v.Dict? && v.fields.Keys == {"media_type", "content"} && !Hashable(v.fields["media_type"])
  }

  // ----- which failure it is ------------------------------------------------

  /** The required fields in the order in which they are looked at. */
  const REQUIRED := ["schema_version", "outcome", "turn_id", "summary", "did", "files", "self_tests", "blocker"]

  /** The k-th required field is there and good. */
  predicate Sound(o: Object, k: nat)
    requires k < 8
  {
    if k == 0 then "schema_version" in o && o["schema_version"] == Text("fleet-graph.worker-turn-report/v1")
    else if k == 1 then "outcome" in o && o["outcome"].Text? && o["outcome"].text in {"completed", "blocked", "failed"}
    else if k == 2 then "turn_id" in o && Prose(o["turn_id"], 256)
    else if k == 3 then "summary" in o && Prose(o["summary"], 8000)
    else if k == 4 then "did" in o && IsDid(o["did"])
    else if k == 5 then "files" in o && IsFiles(o["files"])
    else if k == 6 then "self_tests" in o && IsSelfTests(o["self_tests"])
    else "outcome" in o && o["outcome"].Text? && "blocker" in o && BlockerFits(o["outcome"].text, o["blocker"])
  }

  /** The first field that is not good is the k-th, and it is missing. */
  predicate FirstMissing(o: Object, k: nat)
    requires k < 8
  {
    REQUIRED[k] !in o && forall j :: 0 <= j < k ==> Sound(o, j)
  }

  lemma HeadMissing(o: Object)
    ensures HeadProblem(o) == Some(Missing) <==>
      o.Keys <= REPORT_FIELDS && ("schema_version" !in o || (Sound(o, 0) && "outcome" !in o))
    ensures HeadProblem(o) == None <==> o.Keys <= REPORT_FIELDS && Sound(o, 0) && Sound(o, 1)
    ensures HeadProblem(o) == Some(UnsupportedVersion) <==>
      && o.Keys <= REPORT_FIELDS && "schema_version" in o && o["schema_version"].Text?
      && o["schema_version"] != Text("fleet-graph.worker-turn-report/v1")
  {
  }

  lemma FilesSound(o: Object)
    ensures FilesProblem(o) == Some(Missing) <==> "files" !in o
    ensures FilesProblem(o) == None <==> Sound(o, 5)
    ensures FilesProblem(o) != Some(UnsupportedVersion)
  {
    if "files" in o && o["files"].List? {
      NoProblem(o["files"].items);
      NeverMissing(o["files"].items);
    }
  }

  lemma {:induction false} NeverMissing(files: seq<Json>)
    ensures FirstProblem(files) != Some(Missing) && FirstProblem(files) != Some(UnsupportedVersion)
  {
    if files != [] { NeverMissing(files[..|files| - 1]); }
  }

  lemma BodyMissing(o: Object)
    requires HeadProblem(o) == None
    ensures Problem(o) == Some(Missing) <==>
      || "turn_id" !in o
      || (Sound(o, 2) && "summary" !in o)
      || (Sound(o, 2) && Sound(o, 3) && "did" !in o)
      || (Sound(o, 2) && Sound(o, 3) && Sound(o, 4) && "files" !in o)
      || (Sound(o, 2) && Sound(o, 3) && Sound(o, 4) && Sound(o, 5) && "self_tests" !in o)
      || (Sound(o, 2) && Sound(o, 3) && Sound(o, 4) && Sound(o, 5) && Sound(o, 6) && "blocker" !in o)
    ensures Problem(o) != Some(UnsupportedVersion)
  {
    FilesSound(o);
  }

  /** A report is refused as missing a field exactly if its first field that is not good is not
      there, and as of another version exactly if its version is another text. */
  lemma MissingIsFirst(o: Object)
    ensures Problem(o) == Some(Missing) <==> o.Keys <= REPORT_FIELDS && exists k :: 0 <= k < 8 && FirstMissing(o, k)
    ensures Problem(o) == Some(UnsupportedVersion) <==>
      && o.Keys <= REPORT_FIELDS && "schema_version" in o && o["schema_version"].Text?
      && o["schema_version"] != Text("fleet-graph.worker-turn-report/v1")
  {
    HeadMissing(o);
    if HeadProblem(o) == None { BodyMissing(o); }
    assert REQUIRED[0] == "schema_version" && REQUIRED[1] == "outcome" && REQUIRED[2] == "turn_id" && REQUIRED[3] == "summary";
    assert REQUIRED[4] == "did" && REQUIRED[5] == "files" && REQUIRED[6] == "self_tests" && REQUIRED[7] == "blocker";
    FirstMissingIs(o);
  }

  lemma FirstMissingIs(o: Object)
    ensures (exists k :: 0 <= k < 8 && FirstMissing(o, k)) <==>
      || FirstMissing(o, 0) || FirstMissing(o, 1) || FirstMissing(o, 2) || FirstMissing(o, 3)
      || FirstMissing(o, 4) || FirstMissing(o, 5) || FirstMissing(o, 6) || FirstMissing(o, 7)
  {
  }

  // ----- texts and paths, character by character ----------------------------

  /** A text that is not too long and not all white space. */
  lemma ProseIs(v: Json, max: nat)
    ensures Prose(v, max) <==> v.Text? && |v.text| <= max && exists i :: 0 <= i < |v.text| && !IsSpace(v.text[i])
  {
    if v.Text? {
      StripFacts(v.text);
      if Strip(v.text) != "" {
        var c := Strip(v.text)[0];
        assert c in v.text;
      }
    }
  }

  /** A path is such a text of at most 4096 characters that does not start at the root. */
  lemma GoodPathIs(v: Json)
    ensures GoodPath(v) <==>
      v.Text? && |v.text| <= 4096 && (exists i :: 0 <= i < |v.text| && !IsSpace(v.text[i])) && v.text[0] != '/'
  {
    ProseIs(v, 4096);
  }

  // ----- control and prose --------------------------------------------------

  /** project_control */
  function Control(o: Object): Object
    requires IsReport(o)
  {
    map k | k in CONTROL_FIELDS :: o[k]
  }

  /** What the orchestration sees of a report is all of it but the prose: two reports have the same
      control exactly when they differ in the prose at most, and dropping the prose of a report
      leaves a report with the same control. */
  lemma ProseIsNoControl(a: Object, b: Object)
    requires IsReport(a) && IsReport(b)
    ensures Control(a) == Control(b) <==> a - {"prose_attachment"} == b - {"prose_attachment"}
    ensures IsReport(a - {"prose_attachment"}) && Control(a - {"prose_attachment"}) == Control(a)
  {
    var p := {"prose_attachment"};
    assert (a - p).Keys == CONTROL_FIELDS == (b - p).Keys;
    if Control(a) == Control(b) {
      assert forall k :: k in CONTROL_FIELDS ==> Control(a)[k] == a[k] && Control(b)[k] == b[k];
    }
    if a - p == b - p {
      assert forall k :: k in CONTROL_FIELDS ==> (a - p)[k] == a[k] && (b - p)[k] == b[k];
    }
  }

  // ----- reports that come as text ------------------------------------------

  /** json.loads, with the message of its error, and raw_decode, whatever they are. */
  type Loads = string -> Result<Json, string>
  type RawDecode = (string, nat) -> Option<Json>

  predicate OccursAt(s: string, part: string, i: nat) { i + |part| <= |s| && s[i..i + |part|] == part }

  predicate Contains(s: string, part: string) { exists i :: 0 <= i <= |s| && OccursAt(s, part, i) }

  function ErrorKind(message: string): Failure { if Contains(message, "Unterminated string") then Truncated else Malformed }

  function StripFence(text: string): string
  {
    var stripped := Strip(text);
    if !StartsWith(stripped, "```") then text
    else
      var lines := SplitLines(stripped);
      if |lines| >= 2 && Strip(lines[|lines| - 1]) == "```" then Join(lines[1..|lines| - 1], '\n') else text
  }

  /** A '{', white space, and "schema_version" in quotes. */
  predicate HeadAt(text: string, i: nat)
    requires i < |text|
  {
    text[i] == '{' && StartsWith(LStripBy(IsSpace, text[i + 1..]), "\"schema_version\"")
  }

  predicate ReportAt(raw: RawDecode, text: string, i: nat)
    requires i < |text|
  {
    HeadAt(text, i) && raw(text, i).Some? && raw(text, i).value.Dict?
  }

  /** The last place before n where a report stands. */
  function LastReport(raw: RawDecode, text: string, n: nat): Option<Object>
    requires n <= |text|
  {
    if n == 0 then None
    else if ReportAt(raw, text, n - 1) then Some(raw(text, n - 1).value.fields)
    else LastReport(raw, text, n - 1)
  }

  method ExtractEmbedded(raw: RawDecode, text: string) returns (r: Option<Object>)
    ensures r == LastReport(raw, text, |text|)
  {
    var i: nat := |text|;
    while i > 0
      invariant i <= |text|
      invariant LastReport(raw, text, |text|) == LastReport(raw, text, i)
    {
      i := i - 1;
      if HeadAt(text, i) {
        var parsed := raw(text, i);
        if parsed.Some? && parsed.value.Dict? { return Some(parsed.value.fields); }
      }
    }
    r := None;
  }

  function Coerced(loads: Loads, raw: RawDecode, v: Json): Result<Object, Failure>
  {
    match v
    case Dict(fields) => Ok(fields)
    case Text(text) =>
      (match loads(StripFence(text))
       case Ok(parsed) => if parsed.Dict? then Ok(parsed.fields) else Err(Malformed)
       case Err(message) =>
         match LastReport(raw, text, |text|)
         case Some(o) => Ok(o)
         case None => Err(ErrorKind(message)))
    case _ => Err(Malformed)
  }

  method DecodeReport(loads: Loads, raw: RawDecode, v: Json) returns (r: Result<Json, Failure>)
    ensures r == match Coerced(loads, raw, v)
                 case Err(kind) => Err(kind)
                 case Ok(o) => match Problem(o) case None => Ok(Dict(o)) case Some(f) => Err(f)
  {
    if v.Dict? {
      r := DecodeObject(v.fields);
      return;
    }
    if !v.Text? { return Err(Malformed); }
    var parsed := loads(StripFence(v.text));
    if parsed.Err? {
      var embedded := ExtractEmbedded(raw, v.text);
      if embedded.None? { return Err(ErrorKind(parsed.error)); }
      r := DecodeObject(embedded.value);
      return;
    }
    if !parsed.value.Dict? { return Err(Malformed); }
    r := DecodeObject(parsed.value.fields);
  }

  lemma {:induction false} LastReportIsLast(raw: RawDecode, text: string, n: nat)
    requires n <= |text|
    ensures LastReport(raw, text, n).None? <==> forall i :: 0 <= i < n ==> !ReportAt(raw, text, i)
    ensures LastReport(raw, text, n).Some? ==>
      exists i :: 0 <= i < n && ReportAt(raw, text, i) && raw(text, i).value == Dict(LastReport(raw, text, n).value)
                  && forall j :: i < j < n ==> !ReportAt(raw, text, j)
  {
    if n > 0 {
      if ReportAt(raw, text, n - 1) {
        assert raw(text, n - 1).value == Dict(LastReport(raw, text, n).value);
      } else {
        LastReportIsLast(raw, text, n - 1);
      }
    }
  }

  // ----- what a text decodes to ---------------------------------------------

  /** A report stands at i: an opening brace, white space, the quoted name of the version, and an
      object is decoded from there. */
  ghost predicate Stands(raw: RawDecode, text: string, i: nat, o: Object)
    requires i < |text|
  {
    && raw(text, i) == Some(Dict(o))
    && exists blank, rest :: (forall c :: c in blank ==> IsSpace(c)) && text[i..] == "{" + blank + "\"schema_version\"" + rest
  }

  lemma HeadIs(text: string, i: nat)
    requires i < |text|
    ensures HeadAt(text, i)
      <==> exists blank, rest :: (forall c :: c in blank ==> IsSpace(c)) && text[i..] == "{" + blank + "\"schema_version\"" + rest
  {
    var tail := text[i + 1..];
    if HeadAt(text, i) {
      var blank := LStripSplits(IsSpace, tail);
      var core := LStripBy(IsSpace, tail);
      var rest := core[|"\"schema_version\""|..];
      assert core == "\"schema_version\"" + rest;
      HeadText(text, i, blank, core);
      Regrouped("{" + blank, "\"schema_version\"", rest);
    }
    if blank, rest :| (forall c :: c in blank ==> IsSpace(c)) && text[i..] == "{" + blank + "\"schema_version\"" + rest {
      HeadTail(text, i, blank, rest);
    }
  }

  lemma HeadText(text: string, i: nat, blank: string, core: string)
    requires i < |text| && text[i] == '{' && text[i + 1..] == blank + core
    ensures text[i..] == "{" + blank + core
  {
    assert text[i..] == "{" + text[i + 1..];
    Regrouped("{", blank, core);
  }

  lemma HeadTail(text: string, i: nat, blank: string, rest: string)
    requires i < |text| && (forall c :: c in blank ==> IsSpace(c)) && text[i..] == "{" + blank + "\"schema_version\"" + rest
    ensures HeadAt(text, i)
  {
    var name := "\"schema_version\"";
    Regrouped("{" + blank, name, rest);
    Regrouped("{", blank, name + rest);
    assert text[i..][0] == '{' && text[i..][1..] == blank + (name + rest);
    assert text[i + 1..] == text[i..][1..];
    assert (name + rest)[0] == '"';
    LStripPadded(IsSpace, blank, name + rest);
    Prepended(name, rest);
  }

  lemma StandsIsReportAt(raw: RawDecode, text: string, i: nat, o: Object)
    requires i < |text|
    ensures Stands(raw, text, i, o) <==> ReportAt(raw, text, i) && raw(text, i).value.fields == o
  {
    HeadIs(text, i);
  }

  lemma LastStanding(raw: RawDecode, text: string, i: nat, o: Object, n: nat)
    requires i < n <= |text| && Stands(raw, text, i, o)
    requires forall j, p :: i < j < n ==> !Stands(raw, text, j, p)
    ensures LastReport(raw, text, n) == Some(o)
    decreases n
  {
    StandsIsReportAt(raw, text, i, o);
    if n - 1 > i {
      if ReportAt(raw, text, n - 1) { StandsIsReportAt(raw, text, n - 1, raw(text, n - 1).value.fields); }
      LastStanding(raw, text, i, o, n - 1);
    }
  }

  lemma {:induction false} NoneStanding(raw: RawDecode, text: string, n: nat)
    requires n <= |text| && forall j, p :: 0 <= j < n ==> !Stands(raw, text, j, p)
    ensures LastReport(raw, text, n) == None
  {
    if n > 0 {
      if ReportAt(raw, text, n - 1) { StandsIsReportAt(raw, text, n - 1, raw(text, n - 1).value.fields); }
      NoneStanding(raw, text, n - 1);
    }
  }

  /** What a text is decoded to: the object it is, its fence taken off; if it is none for the JSON
      reader, the object of the last report that stands in it; and only without one the reader's own
      kind of error. */
  lemma TextIsDecoded(loads: Loads, raw: RawDecode, text: string)
    ensures var r := Coerced(loads, raw, Text(text));
      match loads(StripFence(text))
      case Ok(Dict(o)) => r == Ok(o)
      case Ok(_) => r == Err(Malformed)
      case Err(message) =>
        && (forall i, o :: 0 <= i < |text| && Stands(raw, text, i, o) && (forall j, p :: i < j < |text| ==> !Stands(raw, text, j, p))
              ==> r == Ok(o))
        && ((forall i, o :: 0 <= i < |text| ==> !Stands(raw, text, i, o)) ==>
              r == Err(if Contains(message, "Unterminated string") then Truncated else Malformed))
  {
    if loads(StripFence(text)).Err? {
      forall i, o | 0 <= i < |text| && Stands(raw, text, i, o) && (forall j, p :: i < j < |text| ==> !Stands(raw, text, j, p))
        ensures Coerced(loads, raw, Text(text)) == Ok(o) {
        LastStanding(raw, text, i, o, |text|);
      }
      if forall i, o :: 0 <= i < |text| ==> !Stands(raw, text, i, o) { NoneStanding(raw, text, |text|); }
    }
  }

  /** An object is taken as it is; what is neither object nor text is malformed. */
  lemma OthersAreTaken(loads: Loads, raw: RawDecode, v: Json)
    requires !v.Text?
    ensures Coerced(loads, raw, v) == if v.Dict? then Ok(v.fields) else Err(Malformed)
  {
  }

  /** Some report stands in the text, or none does: the two cases are all there are. */
  lemma {:induction false} LastStandsOrNone(raw: RawDecode, text: string, n: nat)
    requires n <= |text|
    ensures (forall i, o :: 0 <= i < n ==> !Stands(raw, text, i, o))
         || (exists i, o :: 0 <= i < n && Stands(raw, text, i, o) && forall j, p :: i < j < n ==> !Stands(raw, text, j, p))
  {
    if n > 0 {
      LastStandsOrNone(raw, text, n - 1);
      if ReportAt(raw, text, n - 1) {
        StandsIsReportAt(raw, text, n - 1, raw(text, n - 1).value.fields);
      } else {
        var last: nat := n - 1;
        forall p ensures !Stands(raw, text, last, p) { StandsIsReportAt(raw, text, last, p); }
      }
    }
  }

  // ----- the fence ----------------------------------------------------------

  /** The break a text goes on with: "\r\n" is one. */
  predicate IsBreakBefore(brk: string, rest: string)
  {
    brk == "\r\n" || (|brk| == 1 && IsBreak(brk[0]) && (brk[0] == '\r' ==> rest == "" || rest[0] != '\n'))
  }

  lemma SplitLinesAt(line: string, brk: string, rest: string)
    requires NoBreaks(line) && IsBreakBefore(brk, rest)
    ensures SplitLines(line + brk + rest) == [line] + SplitLines(rest)
  {
    var s := line + brk + rest;
    assert s == line + [brk[0]] + (brk[1..] + rest);
    LineEndAt(line, brk[0], brk[1..] + rest);
    assert s[..|line|] == line && s[|line| + |brk|..] == rest;
    assert s[|line|] == brk[0] && BreakWidth(s, |line|) == |brk|;
  }

  lemma FirstBreak(a: string) returns (line: string, brk: string, rest: string)
    requires a != "" && a[|a| - 1] == '\n'
    ensures a == line + brk + rest && NoBreaks(line) && IsBreakBefore(brk, rest)
    ensures rest == "" ==> brk != "\r"
    ensures rest == "" || rest[|rest| - 1] == '\n'
  {
    var e := LineEnd(a);
    assert a[|a| - 1] in a && a[..|a|] == a;
    assert e < |a|;
    var w := BreakWidth(a, e);
    line, brk, rest := a[..e], a[e..e + w], a[e + w..];
    assert a == a[..e + w] + rest && a[..e + w] == line + brk;
  }

  lemma SplitLinesStep(line: string, brk: string, rest: string, b: string)
    requires NoBreaks(line) && IsBreakBefore(brk, rest) && IsBreakBefore(brk, rest + b)
    requires SplitLines(rest + b) == SplitLines(rest) + SplitLines(b)
    ensures SplitLines(line + brk + rest + b) == SplitLines(line + brk + rest) + SplitLines(b)
  {
    SplitLinesAt(line, brk, rest);
    SplitLinesAt(line, brk, rest + b);
    Regrouped(line + brk, rest, b);
    Regrouped([line], SplitLines(rest), SplitLines(b));
  }

  lemma {:induction false} SplitLinesAfterFeed(a: string, b: string)
    requires a == "" || a[|a| - 1] == '\n'
    ensures SplitLines(a + b) == SplitLines(a) + SplitLines(b)
    decreases |a|
  {
    if a == "" {
      assert a + b == b;
    } else {
      var line, brk, rest := FirstBreak(a);
      SplitLinesAfterFeed(rest, b);
      SplitLinesStep(line, brk, rest, b);
    }
  }

  /** The lines of a fenced text. */
  lemma FencedLines(tag: string, body: string)
    requires NoBreaks(tag)
    ensures SplitLines("```" + tag + "\n" + body + "\n```") == ["```" + tag] + SplitLines(body + "\n") + ["```"]
  {
    var head, fed := "```" + tag, body + "\n";
    assert forall c :: c in head ==> c == '`' || c in tag;
    assert "```" + tag + "\n" + body + "\n```" == head + "\n" + (fed + "```");
    SplitLinesCons(head, fed + "```");
    SplitLinesAfterFeed(fed, "```");
    RateHeader.OneLine("```");
  }

  lemma FenceInner(lines: seq<string>, head: string, inner: seq<string>)
    requires lines == [head] + inner + ["```"]
    ensures |lines| >= 2 && lines[|lines| - 1] == "```" && lines[1..|lines| - 1] == inner
  {
  }

  lemma FedBody(body: string)
    ensures Join(SplitLines(body + "\n"), '\n') == body <==> RateHeader.OnlyLineFeeds(body)
  {
    var fed := body + "\n";
    var joined := Join(SplitLines(fed), '\n');
    RateHeader.Rejoining(fed);
    assert fed[|fed| - 1..] == "\n";
    assert joined + "\n" == fed <==> joined == body by {
      assert (joined + "\n")[..|joined|] == joined && fed[..|body|] == body;
    }
    assert forall c :: c in fed <==> c == '\n' || c in body;
  }

  /** The fence of a fenced body is taken off and the body comes out exactly when its only line
      breaks are line feeds: any other break in it is turned into a line feed. */
  lemma FenceIsTransparent(tag: string, body: string)
    requires NoBreaks(tag)
    ensures StripFence("```" + tag + "\n" + body + "\n```") == body <==> RateHeader.OnlyLineFeeds(body)
  {
    var text := "```" + tag + "\n" + body + "\n```";
    assert text[0] == '`' && text[|text| - 1] == '`' && text[..3] == "```";
    StripFixed(text);
    FencedLines(tag, body);
    FenceInner(SplitLines(text), "```" + tag, SplitLines(body + "\n"));
    StripFixed("```");
    FedBody(body);
  }

  /** A fenced body of two lines parted by a vertical tab does not come out as it went in. */
  lemma FenceRewrites()
    ensures var body := "a\U{0B}b"; StripFence("```" + "" + "\n" + body + "\n```") != body
  {
    var body := "a\U{0B}b";
    assert body[1] in body && IsBreak(body[1]) && body[1] != '\n';
    FenceIsTransparent("", body);
  }
}
