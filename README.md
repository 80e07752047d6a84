# Jira issue summarizer

This project models the `get_jira_issue` tool of the Jira MCP server. From an issue key and the issue's JSON document, the tool's `call` builds a flat record with 13 fields:

- key and epic key;
- hours logged and estimated hours;
- title, description and status;
- comments;
- assignee, priority and reporter;
- labels and sprint.

The model takes the document as a parameter, already parsed. Three modules make it up:

- `RubyJson` (`ruby_json.dfy`): the parsed document as a `Json` value, plus the Ruby behaviour the summarizer depends on.
  - Truthiness: only `nil` and `false` are falsy.
  - `||`, `Hash#[]` and `dig`.
  - When Ruby raises instead of yielding a value, the result records the raise (`TypeError` or `NoMethodError`).
  - `Put` is a spec-level write. It describes two documents that differ at a single path.
- `GetJiraIssue` (`get_jira_issue.dfy`): one function per private extractor, and `Summarize`, which is `call`.
  - Each extractor returns its value, or the error Ruby would raise on a mis-shaped document.
  - `Summarize` evaluates the extractors in source order. The first error ends the call, as the first raise does in Ruby.
- `GetJiraIssueProperties` (`get_jira_issue_properties.dfy`): properties that relate several calls or documents.
  - Hours logged against an independently defined total.
  - Appending a worklog.
  - Later sprints are ignored.
  - Each field reads only its own path, and so does the record as a whole.
  - A worked example document.

The code raises on mis-shaped documents, for example an Array where a Hash is expected on a `dig` path. The model follows the code on this, so it does not claim that extraction never fails.

## Model

| member | source | states |
|---|---|---|
| RubyJson.Index | src/mcp.rb:82-84 | `v[k]` with a String key, as at lines 58, 82, 84 and 109: on a Hash, the member or nil; on an Array or Integer, TypeError; on nil, true or false, NoMethodError; on a String, the substring lookup, which is not modelled |
| RubyJson.Descend | src/mcp.rb:76 | the walk after the receiver: the empty path gives the value itself; a successful walk gives the plain member value along the path; the only error is TypeError, and a first node that is neither object nor nil raises it; exactly when the walk succeeds is `DescendOk` |
| RubyJson.Dig | src/mcp.rb:53 | `dig`, as used by every extractor: it succeeds only on a Hash receiver, and then gives the plain member value along the path; an Array receiver raises TypeError and any other raises NoMethodError; on a Hash the only error is TypeError |
| RubyJson.DescendOk | src/mcp.rb:76 | from an object, the walk succeeds exactly when every node it must index, reached by plain member access, is an object or nil |
| RubyJson.DigOk | src/mcp.rb:53 | `dig` succeeds exactly on a Hash receiver whose path passes only through Hashes and nil; otherwise it raises |
| RubyJson.DescendAppend | src/mcp.rb:76 | digging `p + q` is digging `p` and walking `q` from the result; an error on `p` is kept |
| RubyJson.DigNilAlong | src/mcp.rb:53 | `dig` yields nil exactly when plain member access along the path passes only through objects until some segment is absent or null |
| RubyJson.DigBlocked | src/mcp.rb:76 | a value on the path that is neither a Hash nor nil makes `dig` raise TypeError |
| RubyJson.DigPutSame | src/mcp.rb:53 | `dig` on a path that was just written yields the value written |
| RubyJson.DigPutOther | src/mcp.rb:53 | writing at a path unrelated to `p` leaves `dig` along `p` unchanged |
| GetJiraIssue.EpicKey | src/mcp.rb:52-54 | `epic_key` is nil exactly when a segment of `fields.customfield_10014` is absent or null; it is the member reached through the objects on that path; a document that is not a Hash raises; it succeeds exactly when the document is a Hash and every node on the path before the last is a Hash or nil |
| GetJiraIssue.Title | src/mcp.rb:67-69 | the same four facts for `fields.summary` |
| GetJiraIssue.Description | src/mcp.rb:71-73 | the same four facts for `fields.description` |
| GetJiraIssue.Status | src/mcp.rb:75-77 | the same four facts for `fields.status.name` |
| GetJiraIssue.Assignee | src/mcp.rb:89-91 | the same four facts for `fields.assignee.displayName` |
| GetJiraIssue.Priority | src/mcp.rb:93-95 | the same four facts for `fields.priority.name` |
| GetJiraIssue.Reporter | src/mcp.rb:97-99 | the same four facts for `fields.reporter.displayName` |
| GetJiraIssue.EntrySeconds | src/mcp.rb:58 | an entry gives its seconds when `timeSpentSeconds` is an Integer and 0 when it is absent, null or false; it fails otherwise, or when the entry is not a Hash |
| GetJiraIssue.SumSeconds | src/mcp.rb:58 | the sum succeeds exactly when every entry does; otherwise it fails with the first failing entry's error |
| GetJiraIssue.WorklogSeconds | src/mcp.rb:57-58 | a nil or false worklogs value, `[]` or `{}` sums to 0; an Array sums its entries; a non-empty Hash raises TypeError; an Integer or true raises NoMethodError; a String's `sum` is not modelled |
| GetJiraIssue.HoursLogged | src/mcp.rb:56-60 | `hours_logged` is 0 when the worklogs path is absent or null, or holds false or an empty array; it succeeds exactly when the `dig` and the sum of the value found both do, and otherwise fails with the `dig`'s error if it fails, else with the sum's |
| GetJiraIssue.EstimatedHours | src/mcp.rb:62-65 | nil exactly when `fields.timeoriginalestimate` is absent, null or false; an Integer `s`, 0 included, gives `s / 3600`; it fails exactly when the `dig` fails, with the `dig`'s error, or the value is truthy and not an Integer |
| GetJiraIssue.ConvertComment | src/mcp.rb:81-85 | a comment Hash gives `created`, `author.displayName` and `body`, and succeeds exactly when `author` is a Hash or nil, failing otherwise with TypeError; an Array or Integer comment raises TypeError; a String, nil, true or false comment raises NoMethodError |
| GetJiraIssue.MapComments | src/mcp.rb:80-86 | succeeds exactly when every comment converts; the result has the same length, and entry i is the conversion of comment i; otherwise it fails with the first failing comment's error |
| GetJiraIssue.CommentList | src/mcp.rb:80 | a nil or false value, or an empty Hash, gives no comments; an Array is mapped; a non-empty Hash raises TypeError; other scalars raise NoMethodError |
| GetJiraIssue.Comments | src/mcp.rb:79-87 | an absent or null path, or a false value, gives `[]`; an Array is mapped entry by entry; any other value found is handled as `CommentList` states; a failing `dig` fails with its error |
| GetJiraIssue.Labels | src/mcp.rb:101-103 | `labels` is never nil or false: it succeeds exactly when the `dig` does and otherwise fails with the `dig`'s error; a truthy value passes unchanged, and an absent, null or false value gives `[]` |
| GetJiraIssue.Sprint | src/mcp.rb:105-110 | nil unless `fields.customfield_10021` is a non-empty Array; otherwise it is the first element's `name` and succeeds exactly when that element is a Hash; a failing `dig` fails with its error |
| GetJiraIssue.Summarize | src/mcp.rb:32-50 | `call` succeeds exactly when all twelve extractors do; the record's key is the caller's key and each field is its extractor's value; a document that is not a Hash raises |
| GetJiraIssueProperties.WellFormedWorklogsEach | src/mcp.rb:58 | entries are well formed as a list exactly when each entry is well formed |
| GetJiraIssueProperties.SumSecondsAppend | src/mcp.rb:58 | appending an entry adds its seconds to a successful sum, or fails with the entry's error; a failed sum stays failed |
| GetJiraIssueProperties.SumSecondsIsTotal | src/mcp.rb:58 | over well-formed entries, Ruby's `sum` equals the plain total of the entries' seconds, with a missing value counting 0 |
| GetJiraIssueProperties.HoursLoggedIsTotal | src/mcp.rb:57-59 | over an Array of well-formed entries (Hashes whose `timeSpentSeconds` is an Integer or absent, null or false), `hours_logged` is exactly the total seconds of the entries divided by 3600 |
| GetJiraIssueProperties.HoursLoggedOfSum | src/mcp.rb:57-59 | worklogs that sum to `t` seconds give `t / 3600` hours |
| GetJiraIssueProperties.HoursLoggedAppend | src/mcp.rb:57-59 | appending a worklog entry adds its seconds / 3600 to `hours_logged` |
| GetJiraIssueProperties.SprintIgnoresLater | src/mcp.rb:105-110 | sprint lists with the same first element give the same `sprint`, whatever follows it |
| GetJiraIssueProperties.HoursLoggedReadsOnlyItsPath | src/mcp.rb:56-60 | `hours_logged` depends only on what `dig` finds at its path |
| GetJiraIssueProperties.EstimatedHoursReadsOnlyItsPath | src/mcp.rb:62-65 | `estimated_hours` depends only on what `dig` finds at its path |
| GetJiraIssueProperties.CommentsReadsOnlyItsPath | src/mcp.rb:79-87 | `comments` depends only on what `dig` finds at its path |
| GetJiraIssueProperties.LabelsReadsOnlyItsPath | src/mcp.rb:101-103 | `labels` depends only on what `dig` finds at its path |
| GetJiraIssueProperties.SprintReadsOnlyItsPath | src/mcp.rb:105-110 | `sprint` depends only on what `dig` finds at its path |
| GetJiraIssueProperties.SummarizeOfAgreeingFields | src/mcp.rb:35-49 | the outcome of `call` is determined by its twelve extractors: documents on which they agree give the same outcome |
| GetJiraIssueProperties.SummarizeReadsOnlyFieldPaths | src/mcp.rb:35-49 | two documents that agree on the twelve field paths give `call` the same outcome |
| GetJiraIssueProperties.SummarizeIgnoresUnrelatedPut | src/mcp.rb:35-49 | a change at a path unrelated to all twelve field paths leaves the whole outcome of `call` unchanged |
| GetJiraIssueProperties.EpicKeyIgnoresUnrelatedPut | src/mcp.rb:52-54 | a change at a path unrelated to the path of `epic_key` leaves `epic_key` unchanged |
| GetJiraIssueProperties.TitleIgnoresUnrelatedPut | src/mcp.rb:67-69 | a change at a path unrelated to the path of `title` leaves `title` unchanged |
| GetJiraIssueProperties.DescriptionIgnoresUnrelatedPut | src/mcp.rb:71-73 | a change at a path unrelated to the path of `description` leaves `description` unchanged |
| GetJiraIssueProperties.StatusIgnoresUnrelatedPut | src/mcp.rb:75-77 | a change at a path unrelated to the path of `status` leaves `status` unchanged |
| GetJiraIssueProperties.AssigneeIgnoresUnrelatedPut | src/mcp.rb:89-91 | a change at a path unrelated to the path of `assignee` leaves `assignee` unchanged |
| GetJiraIssueProperties.PriorityIgnoresUnrelatedPut | src/mcp.rb:93-95 | a change at a path unrelated to the path of `priority` leaves `priority` unchanged |
| GetJiraIssueProperties.ReporterIgnoresUnrelatedPut | src/mcp.rb:97-99 | a change at a path unrelated to the path of `reporter` leaves `reporter` unchanged |
| GetJiraIssueProperties.HoursLoggedIgnoresUnrelatedPut | src/mcp.rb:56-60 | a change at a path unrelated to the path of `hours_logged` leaves `hours_logged` unchanged |
| GetJiraIssueProperties.EstimatedHoursIgnoresUnrelatedPut | src/mcp.rb:62-65 | a change at a path unrelated to the path of `estimated_hours` leaves `estimated_hours` unchanged |
| GetJiraIssueProperties.CommentsIgnoresUnrelatedPut | src/mcp.rb:79-87 | a change at a path unrelated to the path of `comments` leaves `comments` unchanged |
| GetJiraIssueProperties.LabelsIgnoresUnrelatedPut | src/mcp.rb:101-103 | a change at a path unrelated to the path of `labels` leaves `labels` unchanged |
| GetJiraIssueProperties.SprintIgnoresUnrelatedPut | src/mcp.rb:105-110 | a change at a path unrelated to the path of `sprint` leaves `sprint` unchanged |
| GetJiraIssueProperties.FieldsReadTheirPath | src/mcp.rb:52-103 | a value written at a simple field's own path is read back by that field; `labels` reads it back, or `[]` when it is falsy |
| GetJiraIssueProperties.ExampleTextFields | src/mcp.rb:52-73 | the example issue's epic key is nil, its title is "Fix bug" and its description is nil |
| GetJiraIssueProperties.ExampleConvertedFields | src/mcp.rb:62-110 | the example's estimate of 7200 seconds is 2.0 hours; its labels pass through; its sprint is "Sprint 5" |
| GetJiraIssueProperties.ExampleStatusAndComments | src/mcp.rb:75-87 | the example's status is "Open" and, with no comments field, it has no comments |
| GetJiraIssueProperties.ExamplePeople | src/mcp.rb:89-99 | the example names no assignee, priority or reporter, so all three are nil |
| GetJiraIssueProperties.ExampleHours | src/mcp.rb:56-60 | worklogs of 3600 and 1800 seconds give 1.5 hours |
| GetJiraIssueProperties.ExampleSummary | src/mcp.rb:32-110 | `call` on the example under key "KEY-1" returns the full record of the thirteen fields |

## Left out

- The `Server` class, FastMcp tool registration, the argument schema, `Dotenv.load` and the `ARGV` start hook (src/mcp.rb:1-29, 113) are framework and process plumbing.
- The fetch `JiraClient.new.get_issue(issue_key)` (src/mcp.rb:33) is not modelled: the fetched document is a parameter of `Summarize`.
  - src/jira_client.rb is not part of this model: the HTTP client, configuration from the environment, Basic authentication, the raise on an unsuccessful response, and the `strftime` timestamp of worklog submission.
- JSON parsing is not modelled: the document is an already-parsed `Json` value.
- Floating point is not modelled:
  - the document holds no Float values;
  - `/ 3600.0` is exact real division, not Float division (src/mcp.rb:59, 64).
- Two pieces of String behaviour are reported as `Unmodelled` rather than described:
  - `String#[]` substring lookup on a String worklog entry or sprint element;
  - `String#sum` on a String worklogs value.
- Integers are unbounded, as Ruby's are.
- Summarize: when several extractors would fail, the definition returns the error of the first one in source order, as Ruby raises the first; the contract states only that it succeeds exactly when all of them do.
