/** The Jira issue summarizer: `GetJiraIssue#call` and its private extractors.  Given the
    caller's issue key and the parsed issue document, it builds the flat 13-field record
    the tool returns, or reports the first failure Ruby would raise on the way. */
module GetJiraIssue {
  import opened RubyJson

  const EpicKeyPath: seq<string> := ["fields", "customfield_10014"]
  const WorklogsPath: seq<string> := ["fields", "worklog", "worklogs"]
  const EstimatePath: seq<string> := ["fields", "timeoriginalestimate"]
  const TitlePath: seq<string> := ["fields", "summary"]
  const DescriptionPath: seq<string> := ["fields", "description"]
  const StatusPath: seq<string> := ["fields", "status", "name"]
  const CommentsPath: seq<string> := ["fields", "comment", "comments"]
  const AssigneePath: seq<string> := ["fields", "assignee", "displayName"]
  const PriorityPath: seq<string> := ["fields", "priority", "name"]
  const ReporterPath: seq<string> := ["fields", "reporter", "displayName"]
  const LabelsPath: seq<string> := ["fields", "labels"]
  const SprintsPath: seq<string> := ["fields", "customfield_10021"]
  const AuthorPath: seq<string> := ["author", "displayName"]

  /** One entry of the `comments` field; nil is JNull. */
  datatype Comment = Comment(timestamp: Json, author: Json, body: Json)

  /** The record `call` returns; nil is JNull, and None for `estimated_hours`. */
  datatype Summary = Summary(
    key: string,
    epicKey: Json,
    hoursLogged: real,
    estimatedHours: Option<real>,
    title: Json,
    description: Json,
    status: Json,
    comments: seq<Comment>,
    assignee: Json,
    priority: Json,
    reporter: Json,
    labels: Json,
    sprint: Json)

  // ---------------------------------------------------------------------------
  // The fields that are a single `dig`

  function EpicKey(doc: Json): (r: Result<Json>)
    ensures r == Ok(JNull) <==> NilAlong(doc, EpicKeyPath)
    ensures doc.JObj? && Member(doc, "fields").JObj? ==>
      r == Ok(Member(Member(doc, "fields"), "customfield_10014"))
    ensures !doc.JObj? ==> r.Err?
    ensures r.Ok? <==> doc.JObj? && Passable(doc, EpicKeyPath)
  {
    DigNilAlong(doc, EpicKeyPath);
    DigOk(doc, EpicKeyPath);
    Dig(doc, EpicKeyPath)
  }

  function Title(doc: Json): (r: Result<Json>)
    ensures r == Ok(JNull) <==> NilAlong(doc, TitlePath)
    ensures doc.JObj? && Member(doc, "fields").JObj? ==>
      r == Ok(Member(Member(doc, "fields"), "summary"))
    ensures !doc.JObj? ==> r.Err?
    ensures r.Ok? <==> doc.JObj? && Passable(doc, TitlePath)
  {
    DigNilAlong(doc, TitlePath);
    DigOk(doc, TitlePath);
    Dig(doc, TitlePath)
  }

  function Description(doc: Json): (r: Result<Json>)
    ensures r == Ok(JNull) <==> NilAlong(doc, DescriptionPath)
    ensures doc.JObj? && Member(doc, "fields").JObj? ==>
      r == Ok(Member(Member(doc, "fields"), "description"))
    ensures !doc.JObj? ==> r.Err?
    ensures r.Ok? <==> doc.JObj? && Passable(doc, DescriptionPath)
  {
    DigNilAlong(doc, DescriptionPath);
    DigOk(doc, DescriptionPath);
    Dig(doc, DescriptionPath)
  }

  function Status(doc: Json): (r: Result<Json>)
    ensures r == Ok(JNull) <==> NilAlong(doc, StatusPath)
    ensures doc.JObj? && Member(doc, "fields").JObj? && Member(Member(doc, "fields"), "status").JObj? ==>
      r == Ok(Member(Member(Member(doc, "fields"), "status"), "name"))
    ensures !doc.JObj? ==> r.Err?
    ensures r.Ok? <==> doc.JObj? && Passable(doc, StatusPath)
  {
    DigNilAlong(doc, StatusPath);
    DigOk(doc, StatusPath);
    Dig(doc, StatusPath)
  }

  function Assignee(doc: Json): (r: Result<Json>)
    ensures r == Ok(JNull) <==> NilAlong(doc, AssigneePath)
    ensures doc.JObj? && Member(doc, "fields").JObj? && Member(Member(doc, "fields"), "assignee").JObj? ==>
      r == Ok(Member(Member(Member(doc, "fields"), "assignee"), "displayName"))
    ensures !doc.JObj? ==> r.Err?
    ensures r.Ok? <==> doc.JObj? && Passable(doc, AssigneePath)
  {
    DigNilAlong(doc, AssigneePath);
    DigOk(doc, AssigneePath);
    Dig(doc, AssigneePath)
  }

  function Priority(doc: Json): (r: Result<Json>)
    ensures r == Ok(JNull) <==> NilAlong(doc, PriorityPath)
    ensures doc.JObj? && Member(doc, "fields").JObj? && Member(Member(doc, "fields"), "priority").JObj? ==>
      r == Ok(Member(Member(Member(doc, "fields"), "priority"), "name"))
    ensures !doc.JObj? ==> r.Err?
    ensures r.Ok? <==> doc.JObj? && Passable(doc, PriorityPath)
  {
    DigNilAlong(doc, PriorityPath);
    DigOk(doc, PriorityPath);
    Dig(doc, PriorityPath)
  }

  function Reporter(doc: Json): (r: Result<Json>)
    ensures r == Ok(JNull) <==> NilAlong(doc, ReporterPath)
    ensures doc.JObj? && Member(doc, "fields").JObj? && Member(Member(doc, "fields"), "reporter").JObj? ==>
      r == Ok(Member(Member(Member(doc, "fields"), "reporter"), "displayName"))
    ensures !doc.JObj? ==> r.Err?
    ensures r.Ok? <==> doc.JObj? && Passable(doc, ReporterPath)
  {
    DigNilAlong(doc, ReporterPath);
    DigOk(doc, ReporterPath);
    Dig(doc, ReporterPath)
  }

  // ---------------------------------------------------------------------------
  // hours_logged

  /** One worklog entry's contribution: `w['timeSpentSeconds'] || 0`, which the sum then
      adds to an Integer total (adding anything but an Integer raises TypeError). */
  function EntrySeconds(w: Json): (r: Result<int>)
    ensures r.Ok? <==> w.JObj? && (Member(w, "timeSpentSeconds").JInt? || !Truthy(Member(w, "timeSpentSeconds")))
    ensures w.JObj? && !Truthy(Member(w, "timeSpentSeconds")) ==> r == Ok(0)
    ensures w.JObj? && Member(w, "timeSpentSeconds").JInt? ==> r == Ok(Member(w, "timeSpentSeconds").i)
  {
    var t :- Index(w, "timeSpentSeconds");
    match OrElse(t, JInt(0))
    case JInt(n) => Ok(n)
    case _ => Err(TypeError)
  }

  /** `worklogs.sum { ... }` over an Array, left to right: the first entry that fails
      decides the failure. */
  function SumSeconds(ws: seq<Json>): (r: Result<int>)
    ensures r.Ok? <==> forall i :: 0 <= i < |ws| ==> EntrySeconds(ws[i]).Ok?
    ensures r.Err? ==> exists i :: 0 <= i < |ws| && EntrySeconds(ws[i]) == Err(r.error) &&
                                  forall j :: 0 <= j < i ==> EntrySeconds(ws[j]).Ok?
  {
    if ws == [] then Ok(0)
    else
      var n :- EntrySeconds(ws[0]);
      var rest :- SumSeconds(ws[1..]);
      assert forall i :: 1 <= i < |ws| ==> ws[i] == ws[1..][i - 1];
      Ok(n + rest)
  }

  /** `(worklogs || []).sum { ... }`: nil and false sum nothing; a Hash enumerates
      [key, value] pairs, so an empty one sums to 0 and any other fails on its first
      pair; String#sum is a checksum (not modelled); other values have no `sum`. */
  function WorklogSeconds(v: Json): (r: Result<int>)
    ensures !Truthy(v) || v == JArr([]) || v == JObj(map[]) ==> r == Ok(0)
    ensures v.JObj? && v.obj != map[] ==> r == Err(TypeError)
    ensures v.JArr? ==> r == SumSeconds(v.elems)
    ensures v.JInt? || v == JBool(true) ==> r == Err(NoMethodError)
    ensures v.JStr? ==> r == Err(Unmodelled)
  {
    match OrElse(v, JArr([]))
    case JArr(ws) => SumSeconds(ws)
    case JObj(m) => if m == map[] then Ok(0) else Err(TypeError)
    case JStr(_) => Err(Unmodelled)
    case _ => Err(NoMethodError)
  }

  /** `hours_logged`: total seconds over 3600, as an exact real. */
  function HoursLogged(doc: Json): (r: Result<real>)
    ensures NilAlong(doc, WorklogsPath) ==> r == Ok(0.0)
    ensures Dig(doc, WorklogsPath) == Ok(JBool(false)) ==> r == Ok(0.0)
    ensures Dig(doc, WorklogsPath) == Ok(JArr([])) ==> r == Ok(0.0)
    ensures r.Ok? <==> Dig(doc, WorklogsPath).Ok? && WorklogSeconds(Dig(doc, WorklogsPath).value).Ok?
    ensures r.Err? && Dig(doc, WorklogsPath).Ok? ==> r == Err(WorklogSeconds(Dig(doc, WorklogsPath).value).error)
    ensures Dig(doc, WorklogsPath).Err? ==> r == Err(Dig(doc, WorklogsPath).error)
  {
    DigNilAlong(doc, WorklogsPath);
    var worklogs :- Dig(doc, WorklogsPath);
    var total :- WorklogSeconds(worklogs);
    Ok(total as real / 3600.0)
  }

  // ---------------------------------------------------------------------------
  // estimated_hours

  /** `seconds ? seconds / 3600.0 : nil`; Strings, Arrays, Hashes and true have no `/`. */
  function EstimatedHours(doc: Json): (r: Result<Option<real>>)
    ensures r == Ok(None) <==> Dig(doc, EstimatePath).Ok? && !Truthy(Dig(doc, EstimatePath).value)
    ensures NilAlong(doc, EstimatePath) ==> r == Ok(None)
    ensures Dig(doc, EstimatePath).Ok? && Dig(doc, EstimatePath).value.JInt? ==>
      r == Ok(Some(Dig(doc, EstimatePath).value.i as real / 3600.0))
    ensures r.Err? <==> (Dig(doc, EstimatePath).Err? ||
      (Truthy(Dig(doc, EstimatePath).value) && !Dig(doc, EstimatePath).value.JInt?))
    ensures Dig(doc, EstimatePath).Err? ==> r == Err(Dig(doc, EstimatePath).error)
  {
    DigNilAlong(doc, EstimatePath);
    var seconds :- Dig(doc, EstimatePath);
    if !Truthy(seconds) then Ok(None)
    else if seconds.JInt? then Ok(Some(seconds.i as real / 3600.0))
    else Err(NoMethodError)
  }

  // ---------------------------------------------------------------------------
  // comments

  /** The hash literal built for one comment: `created`, `author.displayName` and
      `body`, in that order.  On a String comment `[]` is a substring lookup, which never
      raises, and the `dig` after it raises NoMethodError, since a String has no `dig`. */
  function ConvertComment(c: Json): (r: Result<Comment>)
    ensures c.JObj? ==> (r.Ok? <==> Member(c, "author").JObj? || Member(c, "author").JNull?)
    ensures c.JObj? && r.Err? ==> r.error == TypeError
    ensures r.Ok? ==>
      r.value == Comment(Member(c, "created"), Member(Member(c, "author"), "displayName"), Member(c, "body"))
    ensures c.JArr? || c.JInt? ==> r == Err(TypeError)
    ensures c.JStr? || c.JNull? || c.JBool? ==> r == Err(NoMethodError)
  {
    match c
    case JObj(m) =>
      var author :- Dig(c, AuthorPath);
      Ok(Comment(Lookup(m, "created"), author, Lookup(m, "body")))
    case JStr(_) => Err(NoMethodError)
    case _ => Err(Index(c, "created").error)
  }

  /** `comments.map { ... }` over an Array: same length, same order, the first entry that
      fails decides the failure. */
  function MapComments(cs: seq<Json>): (r: Result<seq<Comment>>)
    ensures r.Ok? <==> forall i :: 0 <= i < |cs| ==> ConvertComment(cs[i]).Ok?
    ensures r.Ok? ==> (|r.value| == |cs| &&
      forall i :: 0 <= i < |cs| ==> r.value[i] == ConvertComment(cs[i]).value)
    ensures r.Err? ==> exists i :: 0 <= i < |cs| && ConvertComment(cs[i]) == Err(r.error) &&
                                  forall j :: 0 <= j < i ==> ConvertComment(cs[j]).Ok?
  {
    if cs == [] then Ok([])
    else
      var c :- ConvertComment(cs[0]);
      var rest :- MapComments(cs[1..]);
      assert forall i :: 1 <= i < |cs| ==> cs[i] == cs[1..][i - 1];
      Ok([c] + rest)
  }

  /** `(comments || []).map { ... }`: as for the worklogs, an empty Hash maps to [] and any
      other Hash fails on its first [key, value] pair; other values have no `map`. */
  function CommentList(v: Json): (r: Result<seq<Comment>>)
    ensures !Truthy(v) || v == JObj(map[]) ==> r == Ok([])
    ensures v.JObj? && v.obj != map[] ==> r == Err(TypeError)
    ensures v.JArr? ==> r == MapComments(v.elems)
    ensures (v.JStr? || v.JInt? || v == JBool(true)) ==> r == Err(NoMethodError)
  {
    match OrElse(v, JArr([]))
    case JArr(cs) => MapComments(cs)
    case JObj(m) => if m == map[] then Ok([]) else Err(TypeError)
    case _ => Err(NoMethodError)
  }

  function Comments(doc: Json): (r: Result<seq<Comment>>)
    ensures NilAlong(doc, CommentsPath) ==> r == Ok([])
    ensures Dig(doc, CommentsPath) == Ok(JBool(false)) ==> r == Ok([])
    ensures Dig(doc, CommentsPath).Ok? && Dig(doc, CommentsPath).value.JArr? ==>
      r == MapComments(Dig(doc, CommentsPath).value.elems)
    ensures Dig(doc, CommentsPath).Ok? ==> r == CommentList(Dig(doc, CommentsPath).value)
    ensures Dig(doc, CommentsPath).Err? ==> r == Err(Dig(doc, CommentsPath).error)
  {
    DigNilAlong(doc, CommentsPath);
    var comments :- Dig(doc, CommentsPath);
    CommentList(comments)
  }

  // ---------------------------------------------------------------------------
  // labels and sprint

  /** `labels || []`. */
  function Labels(doc: Json): (r: Result<Json>)
    ensures r.Ok? <==> Dig(doc, LabelsPath).Ok?
    ensures r.Ok? ==> Truthy(r.value)
    ensures r.Ok? && Truthy(Dig(doc, LabelsPath).value) ==> r.value == Dig(doc, LabelsPath).value
    ensures NilAlong(doc, LabelsPath) ==> r == Ok(JArr([]))
    ensures Dig(doc, LabelsPath) == Ok(JBool(false)) ==> r == Ok(JArr([]))
    ensures Dig(doc, LabelsPath).Err? ==> r == Err(Dig(doc, LabelsPath).error)
  {
    DigNilAlong(doc, LabelsPath);
    var labels :- Dig(doc, LabelsPath);
    Ok(OrElse(labels, JArr([])))
  }

  /** nil unless the sprints are a non-empty Array; otherwise the first one's `name`. */
  function Sprint(doc: Json): (r: Result<Json>)
    ensures Dig(doc, SprintsPath).Ok? && !(Dig(doc, SprintsPath).value.JArr? && |Dig(doc, SprintsPath).value.elems| > 0) ==>
      r == Ok(JNull)
    ensures Dig(doc, SprintsPath).Ok? && Dig(doc, SprintsPath).value.JArr? && |Dig(doc, SprintsPath).value.elems| > 0 ==>
      var first := Dig(doc, SprintsPath).value.elems[0];
      (r.Ok? <==> first.JObj?) && (r.Ok? ==> r.value == Member(first, "name"))
    ensures Dig(doc, SprintsPath).Err? ==> r == Err(Dig(doc, SprintsPath).error)
  {
    var sprints :- Dig(doc, SprintsPath);
    if sprints.JArr? && |sprints.elems| > 0 then Index(sprints.elems[0], "name")
    else Ok(JNull)
  }

  // ---------------------------------------------------------------------------
  // call

  /** `call(issue_key:)` on an already fetched document: the extractors run in the order
      the hash literal lists them, and the first one that fails makes the call fail. */
  function Summarize(key: string, doc: Json): (r: Result<Summary>)
    ensures r.Ok? <==>
      && EpicKey(doc).Ok? && HoursLogged(doc).Ok? && EstimatedHours(doc).Ok?
      && Title(doc).Ok? && Description(doc).Ok? && Status(doc).Ok? && Comments(doc).Ok?
      && Assignee(doc).Ok? && Priority(doc).Ok? && Reporter(doc).Ok?
      && Labels(doc).Ok? && Sprint(doc).Ok?
    ensures r.Ok? ==>
      && r.value.key == key
      && r.value.epicKey == EpicKey(doc).value
      && r.value.hoursLogged == HoursLogged(doc).value
      && r.value.estimatedHours == EstimatedHours(doc).value
      && r.value.title == Title(doc).value
      && r.value.description == Description(doc).value
      && r.value.status == Status(doc).value
      && r.value.comments == Comments(doc).value
      && r.value.assignee == Assignee(doc).value
      && r.value.priority == Priority(doc).value
      && r.value.reporter == Reporter(doc).value
      && r.value.labels == Labels(doc).value
      && r.value.sprint == Sprint(doc).value
    ensures !doc.JObj? ==> r == Err(if doc.JArr? then TypeError else NoMethodError)
  {
    var epicKey :- EpicKey(doc);
    var hoursLogged :- HoursLogged(doc);
    var estimatedHours :- EstimatedHours(doc);
    var title :- Title(doc);
    var description :- Description(doc);
    var status :- Status(doc);
    var comments :- Comments(doc);
    var assignee :- Assignee(doc);
    var priority :- Priority(doc);
    var reporter :- Reporter(doc);
    var labels :- Labels(doc);
    var sprint :- Sprint(doc);
    Ok(Summary(key, epicKey, hoursLogged, estimatedHours, title, description, status,
               comments, assignee, priority, reporter, labels, sprint))
  }
}
