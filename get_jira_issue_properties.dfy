/** Properties of the issue summarizer that relate several calls or several documents. */
module GetJiraIssueProperties {
  import opened RubyJson
  import opened GetJiraIssue

  // ---------------------------------------------------------------------------
  // hours_logged against an independent definition of the total

  /** A worklog entry the sum accepts: a Hash whose `timeSpentSeconds` is an Integer, or is
      absent, null or false. */
  ghost predicate WellFormedEntry(w: Json) {
    w.JObj? && (Member(w, "timeSpentSeconds").JInt? || !Truthy(Member(w, "timeSpentSeconds")))
  }

  /** The seconds an entry records; 0 when it records none. */
  ghost function Spent(w: Json): int {
    if Member(w, "timeSpentSeconds").JInt? then Member(w, "timeSpentSeconds").i else 0
  }

  /** Every entry of the worklogs is well formed. */
  ghost predicate WellFormedWorklogs(ws: seq<Json>)
    decreases |ws|
  {
    ws == [] || (WellFormedEntry(ws[0]) && WellFormedWorklogs(ws[1..]))
  }

  /** The plain sum v1 + ... + vn of the entries' seconds. */
  ghost function SpentTotal(ws: seq<Json>): int
    decreases |ws|
  {
    if ws == [] then 0 else Spent(ws[0]) + SpentTotal(ws[1..])
  }

  /** The recursive statement of well-formedness says the same as "each entry is well formed". */
  lemma {:induction false} WellFormedWorklogsEach(ws: seq<Json>)
    ensures WellFormedWorklogs(ws) <==> forall i :: 0 <= i < |ws| ==> WellFormedEntry(ws[i])
    decreases |ws|
  {
    if ws != [] {
      WellFormedWorklogsEach(ws[1..]);
      assert forall i :: 1 <= i < |ws| ==> ws[i] == ws[1..][i - 1];
    }
  }

  /** Appending an entry to the worklogs adds its seconds to the total, or makes the sum
      fail with that entry's failure; a sum that already failed stays failed. */
  lemma {:induction false} SumSecondsAppend(ws: seq<Json>, w: Json)
    ensures SumSeconds(ws).Err? ==> SumSeconds(ws + [w]) == SumSeconds(ws)
    ensures SumSeconds(ws).Ok? ==> SumSeconds(ws + [w]) ==
                                   match EntrySeconds(w) case Ok(n) => Ok(SumSeconds(ws).value + n) case Err(e) => Err(e)
    decreases |ws|
  {
    if ws == [] {
      assert [] + [w] == [w];
      assert [w][1..] == [];
    } else {
      assert (ws + [w])[0] == ws[0];
      assert (ws + [w])[1..] == ws[1..] + [w];
      SumSecondsAppend(ws[1..], w);
    }
  }

  /** Over well-formed entries the Ruby sum is the plain sum. */
  lemma {:induction false} SumSecondsIsTotal(ws: seq<Json>)
    requires WellFormedWorklogs(ws)
    ensures SumSeconds(ws) == Ok(SpentTotal(ws))
    decreases |ws|
  {
    if ws != [] {
      SumSecondsIsTotal(ws[1..]);
    }
  }

  /** With worklog entries v1 .. vn (each entry's `timeSpentSeconds`, 0 when missing),
      `hours_logged` is (v1 + ... + vn) / 3600 exactly. */
  lemma HoursLoggedIsTotal(doc: Json, ws: seq<Json>)
    requires Dig(doc, WorklogsPath) == Ok(JArr(ws))
    requires WellFormedWorklogs(ws)
    ensures HoursLogged(doc) == Ok(SpentTotal(ws) as real / 3600.0)
  {
    SumSecondsIsTotal(ws);
    HoursLoggedOfSum(doc, ws, SpentTotal(ws));
  }

  /** With an Array of worklogs that sums to `t` seconds, `hours_logged` is t / 3600. */
  lemma HoursLoggedOfSum(doc: Json, ws: seq<Json>, t: int)
    requires Dig(doc, WorklogsPath) == Ok(JArr(ws))
    requires SumSeconds(ws) == Ok(t)
    ensures HoursLogged(doc) == Ok(t as real / 3600.0)
  {
  }

  /** Two documents whose worklogs differ by one appended entry: the second logs that
      entry's seconds / 3600 more hours. */
  lemma HoursLoggedAppend(d1: Json, d2: Json, ws: seq<Json>, w: Json)
    requires Dig(d1, WorklogsPath) == Ok(JArr(ws))
    requires Dig(d2, WorklogsPath) == Ok(JArr(ws + [w]))
    requires HoursLogged(d1).Ok? && EntrySeconds(w).Ok?
    ensures HoursLogged(d2) == Ok(HoursLogged(d1).value + EntrySeconds(w).value as real / 3600.0)
  {
    SumSecondsAppend(ws, w);
    assert WorklogSeconds(JArr(ws)) == SumSeconds(ws);
    assert WorklogSeconds(JArr(ws + [w])) == SumSeconds(ws + [w]);
  }

  // ---------------------------------------------------------------------------
  // sprint

  /** Only the first sprint counts: documents whose sprint lists start alike agree. */
  lemma SprintIgnoresLater(d1: Json, d2: Json, first: Json, t1: seq<Json>, t2: seq<Json>)
    requires Dig(d1, SprintsPath) == Ok(JArr([first] + t1))
    requires Dig(d2, SprintsPath) == Ok(JArr([first] + t2))
    ensures Sprint(d1) == Sprint(d2)
  {
  }

  // ---------------------------------------------------------------------------
  // Each field reads only its own path

  // The seven fields that are a single `dig` read their path by definition; the other
  // five are computed from what their path holds and from nothing else.

  lemma HoursLoggedReadsOnlyItsPath(d1: Json, d2: Json)
    requires Dig(d1, WorklogsPath) == Dig(d2, WorklogsPath)
    ensures HoursLogged(d1) == HoursLogged(d2)
  {
  }

  lemma EstimatedHoursReadsOnlyItsPath(d1: Json, d2: Json)
    requires Dig(d1, EstimatePath) == Dig(d2, EstimatePath)
    ensures EstimatedHours(d1) == EstimatedHours(d2)
  {
  }

  lemma CommentsReadsOnlyItsPath(d1: Json, d2: Json)
    requires Dig(d1, CommentsPath) == Dig(d2, CommentsPath)
    ensures Comments(d1) == Comments(d2)
  {
  }

  lemma LabelsReadsOnlyItsPath(d1: Json, d2: Json)
    requires Dig(d1, LabelsPath) == Dig(d2, LabelsPath)
    ensures Labels(d1) == Labels(d2)
  {
  }

  lemma SprintReadsOnlyItsPath(d1: Json, d2: Json)
    requires Dig(d1, SprintsPath) == Dig(d2, SprintsPath)
    ensures Sprint(d1) == Sprint(d2)
  {
  }

  /** The twelve paths the record is read from. */
  const FieldPaths: seq<seq<string>> := [
    EpicKeyPath, WorklogsPath, EstimatePath, TitlePath, DescriptionPath, StatusPath,
    CommentsPath, AssigneePath, PriorityPath, ReporterPath, LabelsPath, SprintsPath]

  /** Two documents whose twelve fields agree give `call` the same outcome. */
  lemma SummarizeOfAgreeingFields(key: string, d1: Json, d2: Json)
    requires EpicKey(d1) == EpicKey(d2) && HoursLogged(d1) == HoursLogged(d2)
    requires EstimatedHours(d1) == EstimatedHours(d2) && Title(d1) == Title(d2)
    requires Description(d1) == Description(d2) && Status(d1) == Status(d2)
    requires Comments(d1) == Comments(d2) && Assignee(d1) == Assignee(d2)
    requires Priority(d1) == Priority(d2) && Reporter(d1) == Reporter(d2)
    requires Labels(d1) == Labels(d2) && Sprint(d1) == Sprint(d2)
    ensures Summarize(key, d1) == Summarize(key, d2)
  {
  }

  /** Two documents that agree on the twelve paths give `call` the same outcome. */
  lemma SummarizeReadsOnlyFieldPaths(key: string, d1: Json, d2: Json)
    requires forall i :: 0 <= i < |FieldPaths| ==> |FieldPaths[i]| > 0 && Dig(d1, FieldPaths[i]) == Dig(d2, FieldPaths[i])
    ensures Summarize(key, d1) == Summarize(key, d2)
  {
    assert Dig(d1, FieldPaths[0]) == Dig(d2, FieldPaths[0]);
    assert Dig(d1, FieldPaths[1]) == Dig(d2, FieldPaths[1]);
    assert Dig(d1, FieldPaths[2]) == Dig(d2, FieldPaths[2]);
    assert Dig(d1, FieldPaths[3]) == Dig(d2, FieldPaths[3]);
    assert Dig(d1, FieldPaths[4]) == Dig(d2, FieldPaths[4]);
    assert Dig(d1, FieldPaths[5]) == Dig(d2, FieldPaths[5]);
    assert Dig(d1, FieldPaths[6]) == Dig(d2, FieldPaths[6]);
    assert Dig(d1, FieldPaths[7]) == Dig(d2, FieldPaths[7]);
    assert Dig(d1, FieldPaths[8]) == Dig(d2, FieldPaths[8]);
    assert Dig(d1, FieldPaths[9]) == Dig(d2, FieldPaths[9]);
    assert Dig(d1, FieldPaths[10]) == Dig(d2, FieldPaths[10]);
    assert Dig(d1, FieldPaths[11]) == Dig(d2, FieldPaths[11]);
    HoursLoggedReadsOnlyItsPath(d1, d2);
    EstimatedHoursReadsOnlyItsPath(d1, d2);
    CommentsReadsOnlyItsPath(d1, d2);
    LabelsReadsOnlyItsPath(d1, d2);
    SprintReadsOnlyItsPath(d1, d2);
    SummarizeOfAgreeingFields(key, d1, d2);
  }

  /** A change at a path unrelated to all twelve leaves the whole outcome of `call` as it
      was. */
  lemma SummarizeIgnoresUnrelatedPut(key: string, doc: Json, q: seq<string>, x: Json)
    requires |q| > 0
    requires forall i :: 0 <= i < |FieldPaths| ==> Unrelated(doc, FieldPaths[i], q)
    ensures Summarize(key, Put(doc, q, x)) == Summarize(key, doc)
  {
    forall i | 0 <= i < |FieldPaths|
      ensures |FieldPaths[i]| > 0 && Dig(Put(doc, q, x), FieldPaths[i]) == Dig(doc, FieldPaths[i])
    {
      assert Unrelated(doc, FieldPaths[i], q);
      DigPutOther(doc, FieldPaths[i], q, x);
    }
    SummarizeReadsOnlyFieldPaths(key, Put(doc, q, x), doc);
  }

  // Field by field: a change at a path unrelated to a field's own path leaves that field
  // as it was, whatever happens to the other eleven.

  lemma EpicKeyIgnoresUnrelatedPut(doc: Json, q: seq<string>, x: Json)
    requires |q| > 0 && Unrelated(doc, EpicKeyPath, q)
    ensures EpicKey(Put(doc, q, x)) == EpicKey(doc)
  {
    DigPutOther(doc, EpicKeyPath, q, x);
  }

  lemma TitleIgnoresUnrelatedPut(doc: Json, q: seq<string>, x: Json)
    requires |q| > 0 && Unrelated(doc, TitlePath, q)
    ensures Title(Put(doc, q, x)) == Title(doc)
  {
    DigPutOther(doc, TitlePath, q, x);
  }

  lemma DescriptionIgnoresUnrelatedPut(doc: Json, q: seq<string>, x: Json)
    requires |q| > 0 && Unrelated(doc, DescriptionPath, q)
    ensures Description(Put(doc, q, x)) == Description(doc)
  {
    DigPutOther(doc, DescriptionPath, q, x);
  }

  lemma StatusIgnoresUnrelatedPut(doc: Json, q: seq<string>, x: Json)
    requires |q| > 0 && Unrelated(doc, StatusPath, q)
    ensures Status(Put(doc, q, x)) == Status(doc)
  {
    DigPutOther(doc, StatusPath, q, x);
  }

  lemma AssigneeIgnoresUnrelatedPut(doc: Json, q: seq<string>, x: Json)
    requires |q| > 0 && Unrelated(doc, AssigneePath, q)
    ensures Assignee(Put(doc, q, x)) == Assignee(doc)
  {
    DigPutOther(doc, AssigneePath, q, x);
  }

  lemma PriorityIgnoresUnrelatedPut(doc: Json, q: seq<string>, x: Json)
    requires |q| > 0 && Unrelated(doc, PriorityPath, q)
    ensures Priority(Put(doc, q, x)) == Priority(doc)
  {
    DigPutOther(doc, PriorityPath, q, x);
  }

  lemma ReporterIgnoresUnrelatedPut(doc: Json, q: seq<string>, x: Json)
    requires |q| > 0 && Unrelated(doc, ReporterPath, q)
    ensures Reporter(Put(doc, q, x)) == Reporter(doc)
  {
    DigPutOther(doc, ReporterPath, q, x);
  }

  lemma HoursLoggedIgnoresUnrelatedPut(doc: Json, q: seq<string>, x: Json)
    requires |q| > 0 && Unrelated(doc, WorklogsPath, q)
    ensures HoursLogged(Put(doc, q, x)) == HoursLogged(doc)
  {
    DigPutOther(doc, WorklogsPath, q, x);
    HoursLoggedReadsOnlyItsPath(Put(doc, q, x), doc);
  }

  lemma EstimatedHoursIgnoresUnrelatedPut(doc: Json, q: seq<string>, x: Json)
    requires |q| > 0 && Unrelated(doc, EstimatePath, q)
    ensures EstimatedHours(Put(doc, q, x)) == EstimatedHours(doc)
  {
    DigPutOther(doc, EstimatePath, q, x);
    EstimatedHoursReadsOnlyItsPath(Put(doc, q, x), doc);
  }

  lemma CommentsIgnoresUnrelatedPut(doc: Json, q: seq<string>, x: Json)
    requires |q| > 0 && Unrelated(doc, CommentsPath, q)
    ensures Comments(Put(doc, q, x)) == Comments(doc)
  {
    DigPutOther(doc, CommentsPath, q, x);
    CommentsReadsOnlyItsPath(Put(doc, q, x), doc);
  }

  lemma LabelsIgnoresUnrelatedPut(doc: Json, q: seq<string>, x: Json)
    requires |q| > 0 && Unrelated(doc, LabelsPath, q)
    ensures Labels(Put(doc, q, x)) == Labels(doc)
  {
    DigPutOther(doc, LabelsPath, q, x);
    LabelsReadsOnlyItsPath(Put(doc, q, x), doc);
  }

  lemma SprintIgnoresUnrelatedPut(doc: Json, q: seq<string>, x: Json)
    requires |q| > 0 && Unrelated(doc, SprintsPath, q)
    ensures Sprint(Put(doc, q, x)) == Sprint(doc)
  {
    DigPutOther(doc, SprintsPath, q, x);
    SprintReadsOnlyItsPath(Put(doc, q, x), doc);
  }

  /** Setting a field's own path to a value makes that field read it back. */
  lemma FieldsReadTheirPath(doc: Json, x: Json)
    ensures EpicKey(Put(doc, EpicKeyPath, x)) == Ok(x)
    ensures Title(Put(doc, TitlePath, x)) == Ok(x)
    ensures Description(Put(doc, DescriptionPath, x)) == Ok(x)
    ensures Status(Put(doc, StatusPath, x)) == Ok(x)
    ensures Assignee(Put(doc, AssigneePath, x)) == Ok(x)
    ensures Priority(Put(doc, PriorityPath, x)) == Ok(x)
    ensures Reporter(Put(doc, ReporterPath, x)) == Ok(x)
    ensures Labels(Put(doc, LabelsPath, x)) == Ok(OrElse(x, JArr([])))
  {
    DigPutSame(doc, EpicKeyPath, x);
    DigPutSame(doc, TitlePath, x);
    DigPutSame(doc, DescriptionPath, x);
    DigPutSame(doc, StatusPath, x);
    DigPutSame(doc, AssigneePath, x);
    DigPutSame(doc, PriorityPath, x);
    DigPutSame(doc, ReporterPath, x);
    DigPutSame(doc, LabelsPath, x);
  }

  // ---------------------------------------------------------------------------
  // A worked example

  /** An issue with a title, a status, two worklogs (one hour and half an hour), a
      two-hour estimate, one sprint and two labels, and nothing else. */
  function ExampleDoc(): Json {
    JObj(map["fields" := JObj(map[
      "summary" := JStr("Fix bug"),
      "status" := JObj(map["name" := JStr("Open")]),
      "worklog" := JObj(map["worklogs" := JArr([
        JObj(map["timeSpentSeconds" := JInt(3600)]),
        JObj(map["timeSpentSeconds" := JInt(1800)])])]),
      "timeoriginalestimate" := JInt(7200),
      "customfield_10021" := JArr([JObj(map["name" := JStr("Sprint 5")])]),
      "labels" := JArr([JStr("bug"), JStr("urgent")])])])
  }

  /** The example's fields that `fields` holds as they are. */
  lemma ExampleTextFields()
    ensures EpicKey(ExampleDoc()) == Ok(JNull)
    ensures Title(ExampleDoc()) == Ok(JStr("Fix bug"))
    ensures Description(ExampleDoc()) == Ok(JNull)
  {
    var fields := Member(ExampleDoc(), "fields");
    assert fields.JObj?;
    assert "customfield_10014" !in fields.obj && "description" !in fields.obj;
  }

  /** The example's fields that are converted or defaulted. */
  lemma ExampleConvertedFields()
    ensures EstimatedHours(ExampleDoc()) == Ok(Some(2.0))
    ensures Labels(ExampleDoc()) == Ok(JArr([JStr("bug"), JStr("urgent")]))
    ensures Sprint(ExampleDoc()) == Ok(JStr("Sprint 5"))
  {
    assert Dig(ExampleDoc(), EstimatePath) == Ok(JInt(7200));
    assert Dig(ExampleDoc(), LabelsPath) == Ok(JArr([JStr("bug"), JStr("urgent")]));
    assert Dig(ExampleDoc(), SprintsPath) == Ok(JArr([JObj(map["name" := JStr("Sprint 5")])]));
  }

  /** The example's status, read one level further down, and its missing comments. */
  lemma ExampleStatusAndComments()
    ensures Status(ExampleDoc()) == Ok(JStr("Open"))
    ensures Comments(ExampleDoc()) == Ok([])
  {
    var fields := Member(ExampleDoc(), "fields");
    assert fields.JObj? && "comment" !in fields.obj;
    assert Member(fields, "status") == JObj(map["name" := JStr("Open")]);
    assert Dig(ExampleDoc(), ["fields", "comment"]) == Ok(JNull);
    assert CommentsPath[..2] == ["fields", "comment"];
  }

  /** The example names no assignee, priority or reporter. */
  lemma ExamplePeople()
    ensures Assignee(ExampleDoc()) == Ok(JNull)
    ensures Priority(ExampleDoc()) == Ok(JNull)
    ensures Reporter(ExampleDoc()) == Ok(JNull)
  {
    var fields := Member(ExampleDoc(), "fields");
    assert fields.JObj? && "assignee" !in fields.obj;
    assert "priority" !in fields.obj && "reporter" !in fields.obj;
    assert Dig(ExampleDoc(), ["fields", "assignee"]) == Ok(JNull);
    assert Dig(ExampleDoc(), ["fields", "priority"]) == Ok(JNull);
    assert Dig(ExampleDoc(), ["fields", "reporter"]) == Ok(JNull);
    assert AssigneePath[..2] == ["fields", "assignee"];
    assert PriorityPath[..2] == ["fields", "priority"] && ReporterPath[..2] == ["fields", "reporter"];
  }


  /** One hour plus half an hour of worklogs. */
  lemma ExampleHours()
    ensures HoursLogged(ExampleDoc()) == Ok(1.5)
  {
    var ws := [JObj(map["timeSpentSeconds" := JInt(3600)]), JObj(map["timeSpentSeconds" := JInt(1800)])];
    assert Member(Member(ExampleDoc(), "fields"), "worklog") == JObj(map["worklogs" := JArr(ws)]);
    assert Dig(ExampleDoc(), WorklogsPath) == Ok(JArr(ws));
    assert SumSeconds(ws[1..]) == Ok(1800);
    assert SumSeconds(ws) == Ok(5400);
  }

  /** The record `call` returns for the example under the key "KEY-1". */
  lemma ExampleSummary()
    ensures Summarize("KEY-1", ExampleDoc()) == Ok(Summary(
      key := "KEY-1",
      epicKey := JNull,
      hoursLogged := 1.5,
      estimatedHours := Some(2.0),
      title := JStr("Fix bug"),
      description := JNull,
      status := JStr("Open"),
      comments := [],
      assignee := JNull,
      priority := JNull,
      reporter := JNull,
      labels := JArr([JStr("bug"), JStr("urgent")]),
      sprint := JStr("Sprint 5")))
  {
    ExampleTextFields();
    ExampleConvertedFields();
    ExampleStatusAndComments();
    ExamplePeople();
    ExampleHours();
  }
}
