/** The worker turn report, version 1, spelled out (src/fleet_graph/work_report.py): which values the
    decoder's rules let through, as the very objects they have to be. */
module ReportShape {
  import opened Text
  import opened Json
  import opened WorkReport

  /** A text that says something, of bounded length. */
  predicate Says(t: string, max: nat) { |t| <= max && exists i :: 0 <= i < |t| && !IsSpace(t[i]) }

  lemma SaysProse(t: string, max: nat)
    ensures Says(t, max) <==> Prose(Json.Text(t), max)
  {
    ProseIs(Json.Text(t), max);
  }

  /** An object of two fields. */
  function Pair(a: string, x: Json, b: string, y: Json): Json { Json.Dict(map[a := x, b := y]) }

  lemma PairIs(v: Json, a: string, b: string)
    requires v.Dict? && v.fields.Keys == {a, b} && a != b
    ensures v == Pair(a, v.fields[a], b, v.fields[b])
  {
    assert v.fields == map[a := v.fields[a], b := v.fields[b]];
  }

  lemma PairHas(a: string, x: Json, b: string, y: Json)
    requires a != b
    ensures var v := Pair(a, x, b, y); v.fields.Keys == {a, b} && v.fields[a] == x && v.fields[b] == y
  {
  }

  // ----- a changed file -----------------------------------------------------

  predicate ChangeWord(c: string) { c == "created" || c == "modified" || c == "deleted" || c == "unchanged" }

  predicate FileOf(v: Json, path: string, change: string)
  {
    && v == Pair("path", Json.Text(path), "change", Json.Text(change))
    && Says(path, 4096) && path[0] != '/' && ChangeWord(change)
  }

  /** A file: a relative path that says something, and one of the four words. */
  lemma FileIs(v: Json)
    ensures IsFile(v) <==> exists path, change :: FileOf(v, path, change)
  {
    if IsFile(v) {
      PairIs(v, "path", "change");
      GoodPathIs(v.fields["path"]);
      assert FileOf(v, v.fields["path"].text, v.fields["change"].text);
    }
    if path, change :| FileOf(v, path, change) {
      PairHas("path", Json.Text(path), "change", Json.Text(change));
      GoodPathIs(Json.Text(path));
    }
  }

  // ----- a self test --------------------------------------------------------

  predicate Command(argv: seq<Json>)
  {
    1 <= |argv| <= 256 && forall i :: 0 <= i < |argv| ==> argv[i].Text? && |argv[i].text| <= 4096
  }

  predicate SelfTestOf(v: Json, argv: seq<Json>, code: int)
  {
    v == Pair("argv", Json.List(argv), "exit_code", Int(code)) && Command(argv) && code >= 0
  }

  lemma CommandIs(argv: seq<Json>)
    ensures Command(argv) <==> IsArgv(Json.List(argv))
  {
    assert (forall p :: p in argv ==> IsArgument(p)) <==> forall i :: 0 <= i < |argv| ==> IsArgument(argv[i]);
  }

  /** A self test: a command of one to 256 texts, and an exit code that is an integer and not below
      zero. */
  lemma SelfTestIs(v: Json)
    ensures IsSelfTest(v) <==> exists argv, code :: SelfTestOf(v, argv, code)
  {
    if IsSelfTest(v) {
      PairIs(v, "argv", "exit_code");
      CommandIs(v.fields["argv"].items);
      assert SelfTestOf(v, v.fields["argv"].items, v.fields["exit_code"].number);
    }
    if argv, code :| SelfTestOf(v, argv, code) {
      PairHas("argv", Json.List(argv), "exit_code", Int(code));
      CommandIs(argv);
    }
  }

  // ----- a blocker ----------------------------------------------------------

  predicate BlockerOf(v: Json, kind: string, detail: string)
  {
    v == Pair("kind", Json.Text(kind), "detail", Json.Text(detail)) && Says(kind, 256) && Says(detail, 8000)
  }

  ghost predicate NamesBlocker(v: Json) { exists kind, detail :: BlockerOf(v, kind, detail) }

  lemma BlockerIs(v: Json)
    ensures IsBlocker(v) <==> NamesBlocker(v)
  {
    if IsBlocker(v) {
      PairIs(v, "kind", "detail");
      SaysProse(v.fields["kind"].text, 256);
      SaysProse(v.fields["detail"].text, 8000);
      assert BlockerOf(v, v.fields["kind"].text, v.fields["detail"].text);
    }
    if kind, detail :| BlockerOf(v, kind, detail) {
      PairHas("kind", Json.Text(kind), "detail", Json.Text(detail));
      SaysProse(kind, 256);
      SaysProse(detail, 8000);
    }
  }

  /** A completed report names no blocker, a blocked one must, and a failed one may. */
  lemma BlockerByOutcome(v: Json)
    ensures BlockerFits("completed", v) <==> v == Null
    ensures BlockerFits("blocked", v) <==> NamesBlocker(v)
    ensures BlockerFits("failed", v) <==> v == Null || NamesBlocker(v)
  {
    BlockerIs(v);
  }

  // ----- an attachment ------------------------------------------------------

  predicate AttachmentOf(v: Json, mediaType: string, content: string)
  {
    && v == Pair("media_type", Json.Text(mediaType), "content", Json.Text(content))
    && (mediaType == "text/plain" || mediaType == "text/markdown") && |content| <= 200_000
  }

  lemma AttachmentIs(v: Json)
    ensures IsAttachment(v) <==> exists mediaType, content :: AttachmentOf(v, mediaType, content)
  {
    if IsAttachment(v) {
      PairIs(v, "media_type", "content");
      assert AttachmentOf(v, v.fields["media_type"].text, v.fields["content"].text);
    }
    if mediaType, content :| AttachmentOf(v, mediaType, content) {
      PairHas("media_type", Json.Text(mediaType), "content", Json.Text(content));
    }
  }

  // ----- the lists ----------------------------------------------------------

  /** What was done: up to 1024 texts that say something; up to 4096 files; up to 1024 self tests. */
  lemma ListsAre(v: Json)
    ensures IsDid(v) <==> v.List? && |v.items| <= 1024 && forall i :: 0 <= i < |v.items| ==> Prose(v.items[i], 8000)
    ensures IsFiles(v) <==> v.List? && |v.items| <= 4096 && forall i :: 0 <= i < |v.items| ==> IsFile(v.items[i])
    ensures IsSelfTests(v) <==> v.List? && |v.items| <= 1024 && forall i :: 0 <= i < |v.items| ==> IsSelfTest(v.items[i])
  {
  }

  // ----- the whole report ---------------------------------------------------

  predicate Required(key: string)
  {
    || key == "schema_version" || key == "turn_id" || key == "outcome" || key == "summary" || key == "did"
    || key == "files" || key == "self_tests" || key == "blocker"
  }

  /** A report has the eight required fields, may have an attachment, and has nothing else; each field
      is what the lemmas above say. */
  lemma ReportIs(o: Object)
    ensures IsReport(o) <==>
      && (forall key :: Required(key) ==> key in o) && (forall key :: key in o ==> Required(key) || key == "prose_attachment")
      && o["schema_version"] == Json.Text("fleet-graph.worker-turn-report/v1")
      && Prose(o["turn_id"], 256) && Prose(o["summary"], 8000)
      && IsDid(o["did"]) && IsFiles(o["files"]) && IsSelfTests(o["self_tests"])
      && (|| (o["outcome"] == Json.Text("completed") && o["blocker"] == Null)
          || (o["outcome"] == Json.Text("blocked") && NamesBlocker(o["blocker"]))
          || (o["outcome"] == Json.Text("failed") && (o["blocker"] == Null || NamesBlocker(o["blocker"]))))
      && ("prose_attachment" in o ==> IsAttachment(o["prose_attachment"]))
  {
    KeysAre(o);
    if "blocker" in o { BlockerByOutcome(o["blocker"]); }
  }

  lemma KeysAre(o: Object)
    ensures CONTROL_FIELDS <= o.Keys <= REPORT_FIELDS <==>
      (forall key :: Required(key) ==> key in o) && (forall key :: key in o ==> Required(key) || key == "prose_attachment")
  {
    forall key ensures key in CONTROL_FIELDS <==> Required(key) { }
  }

  // ----- the fence ----------------------------------------------------------

  /** A text that does not start with a fence, or whose last line is none, is left as it is; so is a
      fence without a second line. */
  lemma NoFenceStays(text: string)
    requires var core := Strip(text); var lines := SplitLines(core);
      || |core| < 3 || core[0] != '`' || core[1] != '`' || core[2] != '`' || |lines| < 2 || Strip(lines[|lines| - 1]) != "```"
    ensures StripFence(text) == text
  {
    var core := Strip(text);
    if StartsWith(core, "```") { assert core[..3][0] == core[0] && core[..3][1] == core[1] && core[..3][2] == core[2]; }
  }

  /** Of a fenced text the lines between the first and the last remain; there may be none. */
  lemma FenceComesOff(text: string)
    requires var core := Strip(text); var lines := SplitLines(core);
      StartsWith(core, "```") && |lines| >= 2 && Strip(lines[|lines| - 1]) == "```"
    ensures var lines := SplitLines(Strip(text)); StripFence(text) == Join(lines[1..|lines| - 1], '\n')
  {
  }
}
