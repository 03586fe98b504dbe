# LiquidPlanner client: throttle-aware request executor

This project is a Dafny model of `LiquidPlanner\Client`, a PHP wrapper around
the LiquidPlanner REST API. The model covers the only part of the client that
makes decisions: how it executes requests.

- **Sending and retrying.** `post`, `put`, `get` and `delete` send a request
  and decode the JSON reply. A reply that is a throttle signal makes the client
  sleep and send the identical request again.
- **Wait time.** `getWaitTime` extracts the wait from the signal's message.
- **Resource methods.** Most build their URL from the workspace URL, the
  optional `'/'.$id` and `'?'.http_build_query($params)` suffixes, and PHP's
  truthiness and string conversion. Two do not: `account` builds from the
  API root (`BaseUrl + "/account"`), and `activitiesCreate` builds no URL at
  all; it sends nothing and answers a placeholder.

Modules, leaf first:

| module | file | what it models |
|---|---|---|
| `Wrappers` | wrappers.dfy | `Option` |
| `Decimal` | decimal.dfy | the value of a digit run; PHP's rendering of a non-negative integer |
| `Php` | php.dfy | decoded PHP values (`Json`); truthiness; string conversion; `isset($v[$k])`; loose `==` against a word |
| `WaitTime` | wait_time.dfy | `getWaitTime`: leftmost match of `Try again in ([0-9]{1,}) seconds`, number + 2, else 15 |
| `Throttle` | throttle.dfy | the throttle test applied to every decoded reply, and the wait it asks for |
| `Executor` | executor.dfy | the shared retry recursion of `post`/`put`/`get`/`delete` |
| `Resources`, `ResourceProperties` | resources.dfy | the request each resource method builds, and properties of those URLs |

The server is a **script**: the decoded reply to each successive send. A
transport failure or a body that is not JSON decodes to `Null`, just as
`json_decode` of `false` or of garbage yields `null`. The source recurses
without limit. In the model, the recursion ends when the script runs out,
and the result is `Exhausted`. A run is recorded as a `Trace`:
- the outcome: the returned reply, or `Exhausted`;
- the sleeps taken, in seconds, in order;
- the requests sent, in order.

Sleeping appears only as the list of durations.

Three behaviours of the code are worth naming:

- **Transport failures.** A failed transfer is not an error. curl's `false`
  decodes to `null`, which is not throttled, so it is returned at once
  (`Executor.NullReturnedWithoutRetry`).
- **Undecodable replies.** A body that is not JSON comes back as `null`,
  the result of `json_decode`, not as the raw text.
- **Loose comparison.** The throttle test compares `type` with `"Error"` and
  `error` with `"Throttled"` using PHP's loose `==`, and `true == "Error"`
  holds. So a reply whose `type` or `error` is boolean `true` also counts as
  throttled. `Throttle.ThrottledShape` states the exact set.
  `Throttle.ThrottledStringFields` shows that, for the service's own
  string-valued error object, the test is plain string equality.

## Model

| member | source | states |
|---|---|---|
| WaitTime.FindMatch | Client.php:648-649 | the result is a match of the pattern at or after `from` with no match between `from` and it; no result means no match at or after `from` |
| WaitTime.CaptureAtFindsMatch | Client.php:648 | a match at an offset is unique: any match there captures exactly the digits `CaptureAt` returns (greedy digits followed by " seconds") |
| WaitTime.CaptureAtComplete | Client.php:648 | when `CaptureAt` finds nothing at an offset, the pattern does not match there |
| WaitTime.WaitTime | Client.php:646-655 | the wait is never below 2 seconds |
| WaitTime.WaitTimeOfLeftmostMatch | Client.php:648-652 | when the leftmost match captures digits `d`, the wait is the value of `d` plus 2 |
| WaitTime.WaitTimeWithoutMatch | Client.php:649-654 | a message the pattern does not match waits exactly 15 seconds |
| WaitTime.WaitTimeExplained | Client.php:648-654 | every wait is either the fallback of a message with no match, or the leftmost match's number plus 2 |
| WaitTime.NoMatchWithoutUpperT | Client.php:648-649 | a message without an upper-case T never matches |
| WaitTime.WaitTimeOfRenderedNumber | Client.php:648-652 | a message that opens with "Try again in N seconds" waits N + 2, for every N |
| WaitTime.ExampleSevenSeconds | Client.php:648-652 | "Try again in 7 seconds" waits 9 |
| WaitTime.ExampleLeadingZeros | Client.php:648-652 | "Try again in 007 seconds" waits 9 |
| WaitTime.ExampleNoNumber | Client.php:649-654 | "Try again in a few seconds" waits the 15-second fallback |
| WaitTime.ExampleLaterOccurrence | Client.php:648-652 | an earlier "Try again in 3 minutes" is skipped; the later "12 seconds" gives 14 |
| Decimal.ValueIgnoresLeadingZero | Client.php:651-652 | a leading zero does not change the number a digit run denotes |
| Decimal.ValueOfFromNat | Client.php:652 | reading back the decimal rendering of n gives n |
| Decimal.FromNatOfValue | Client.php:652 | rendering the value of a canonical digit run gives the run back |
| Decimal.FromNatInjective | Client.php:103 | distinct non-negative integers render as distinct strings |
| Php.SignOfIntToString | Client.php:103 | a rendered integer opens with a minus sign exactly when it is negative |
| Php.IntToStringInjective | Client.php:103 | distinct integers, negative ones included, render as distinct strings |
| Php.TruthyIffNotFalsy | Client.php:103 | a value is truthy exactly when it is not null, false, 0, "", "0" or an empty array |
| Php.LooseEqualsWordIff | Client.php:502 | a decoded value is loosely equal to a word exactly when it is that string or `true` |
| Php.NonStringHasNoUpperT | Client.php:649 | the string a non-string message converts to contains no upper-case T |
| Throttle.ThrottledShape | Client.php:502 | a reply is throttled iff it is an associative array whose `type` is "Error" or `true` and whose `error` is "Throttled" or `true` |
| Throttle.ThrottledStringFields | Client.php:502 | with string-valued `type` and `error`, a reply is throttled iff they are "Error" and "Throttled" |
| Throttle.OnlyObjectsThrottled | Client.php:499-502 | null, scalars and lists are never throttled |
| Throttle.ThrottleWait | Client.php:505 | the sleep after a throttled reply is at least 2; it is the parsed wait of a string message, and 15 when the message is absent or not a string |
| Executor.Execute | Client.php:499-510 | every request sent equals the original; each sleep follows a throttled reply and equals its wait; a returned reply is the first unthrottled one; otherwise every reply was throttled |
| Executor.RunIsUnique | Client.php:499-510 | that description of a run is complete: two traces that both fit the same request and script are equal |
| Executor.UnthrottledReplyReturnedAtOnce | Client.php:502-510 | an unthrottled first reply is returned unchanged after one send and no sleep |
| Executor.NullReturnedWithoutRetry | Client.php:499-510 | a failed transfer or decode (null) is returned after one send, without retry |
| Executor.ReturnsFirstUnthrottled | Client.php:502-510 | with k throttled replies before the first unthrottled one, that reply is returned after k sleeps and k + 1 sends |
| Executor.AllThrottledExhausts | Client.php:502-508 | if every scripted reply is throttled, nothing is returned and every reply was used |
| Executor.LaterRepliesIgnored | Client.php:507-510 | replies after the returned one are never consumed: extending the script changes nothing |
| Executor.TotalSleepAtLeastMargin | Client.php:505 | the total time slept is at least 2 seconds per retry |
| Executor.PostCall | Client.php:482-511 | a run of POST with the encoded body: each attempt resends it unchanged, one sleep of the asked wait per throttled reply, the first unthrottled reply returned |
| Executor.PutCall | Client.php:520-549 | a run of PUT with the `http_build_query` body: each attempt resends it unchanged, one sleep of the asked wait per throttled reply, the first unthrottled reply returned |
| Executor.GetCall | Client.php:557-585 | a run of GET without a body: each attempt resends it unchanged, one sleep of the asked wait per throttled reply, the first unthrottled reply returned |
| Executor.DeleteCall | Client.php:595-621 | a run of DELETE without a body: each attempt resends it unchanged, one sleep of the asked wait per throttled reply, the first unthrottled reply returned |
| Resources.ServiceUrl | Client.php:66-67 | the workspace URL is the API root, then `/workspaces/`, then the workspace id's string form |
| Resources.Perform | Client.php:104-106 | a sending call yields the executor's run of its request (resends, sleeps, first unthrottled reply); the stub yields its value without sending |
| Resources.Tasks | Client.php:101-107 | a GET under the workspace without a body |
| Resources.Timesheets | Client.php:118-124 | a GET under the workspace without a body |
| Resources.TimesheetEntries | Client.php:136-142 | a GET under the workspace without a body |
| Resources.TaskTimesheetEntries | Client.php:151-156 | a GET under the workspace without a body |
| Resources.Account | Client.php:276-282 | a GET of the API root's `/account`, outside the workspace, without a body |
| Resources.Workspace | Client.php:291-297 | a GET of the workspace URL itself |
| Resources.Clients | Client.php:308-314 | a GET under the workspace without a body |
| Resources.ClientsComments | Client.php:350-356 | a GET under the workspace without a body |
| Resources.Members | Client.php:365-371 | a GET under the workspace without a body |
| Resources.Member | Client.php:381-384 | a GET under the workspace without a body |
| Resources.Projects | Client.php:427-433 | a GET under the workspace without a body |
| Resources.Activities | Client.php:444-450 | a GET under the workspace without a body |
| Resources.ClientsCommentsDelete | Client.php:84-90 | a DELETE under the workspace without a body |
| Resources.TasksDelete | Client.php:189-195 | a DELETE under the workspace without a body |
| Resources.TasksCreate | Client.php:167-174 | a POST under the workspace with a body |
| Resources.TasksTrackTime | Client.php:207-214 | a POST under the workspace with a body |
| Resources.TasksCommentsCreate | Client.php:226-233 | a POST under the workspace with a body |
| Resources.TasksNoteCreate | Client.php:243-250 | a POST under the workspace with a body |
| Resources.TasksLinkCreate | Client.php:260-267 | a POST under the workspace with a body |
| Resources.ClientsCreate | Client.php:327-338 | a POST under the workspace with a body |
| Resources.ProjectsCreate | Client.php:401-416 | a POST under the workspace with a body |
| Resources.ActivitiesCreate | Client.php:461-463 | answers at once instead of sending a request |
| ResourceProperties.FalsyIdOmitted | Client.php:103 | a falsy id gives the collection URL for tasks, time-sheet entries, clients, client comments, members, projects and activities (lines 138, 310, 352, 367, 429, 446 too) |
| ResourceProperties.TruthyIdAppendsSegment | Client.php:103 | a truthy id extends the collection URL by "/" and the id's string form, for tasks, clients, members, projects and activities (lines 310, 367, 429, 446 too) |
| ResourceProperties.ParamsAppendQuery | Client.php:103 | a truthy parameter array appends "?" and its query string, an empty one nothing, for tasks, timesheets and both entry lists (lines 120, 138, 153 too) |
| ResourceProperties.DistinctTaskIdsDistinctUrls | Client.php:103 | distinct positive task ids give distinct task URLs |
| ResourceProperties.DistinctWorkspaceIdsDistinctUrls | Client.php:67 | distinct non-negative workspace ids give distinct workspace URLs |
| ResourceProperties.TaskTimesheetEntriesWithoutId | Client.php:151-153 | with its default null task id the URL has an empty segment, `/tasks//timesheet_entries` |
| ResourceProperties.MemberDelegatesToMembers | Client.php:381-384 | `member($id)` behaves exactly as `members($id)` for every server script |
| ResourceProperties.ActivitiesCreateSendsNothing | Client.php:461-463 | `activitiesCreate` returns the one-element placeholder list and sends no request, whatever the script |
| ResourceProperties.CreateTaskAfterThrottle | Client.php:167-174 | creating a task against "throttled, try again in 1 seconds" then an answer sleeps 3 seconds, sends the same request twice and returns the answer |

## Left out

- Transport: the model leaves out curl setup and execution, the `Content-Type` header, the basic-auth credentials, gzip handling and the disabled TLS peer verification (Client.php:485-496, 523-534, 560-570, 598-607). These are I/O. The server is a script of decoded replies, and the credentials are carried but not used.
- `json_decode`, `json_encode` and `http_build_query` internals: foreign library calls. Replies arrive already decoded, and the encoders are uninterpreted `Json -> string` parameters. The model's associative arrays are maps, so the key order `json_encode` would follow is not represented.
- Floating-point JSON numbers: `Num` holds integers only. `Num` also admits integers beyond PHP's 64-bit `int`, which `json_decode` would turn into floats.
- Strings are sequences of characters, while PHP strings are bytes. The wait-time pattern is ASCII and `json_decode` yields valid UTF-8, so no match changes.
- Overflow of long digit runs in `getWaitTime`: PHP turns a number too long for an integer into a float in `$matches[1] + 2`. The model reads an unbounded `nat`.
- PHP version: loose `==` follows PHP 8, where a number never equals "Error". PHP 7 would also accept `0`.
- Array-valued `message`: PHP 8 raises a TypeError in `preg_match` for an array. The model converts it to "Array" instead, which waits the 15-second fallback.
- `sleep` and `throttleMessage` (Client.php:627-638): sleeping, and the debug `echo`/`ob_flush`. These are side effects. Sleeps appear only as the returned durations, and the debug flag has no effect on them.
- The `echo $url` in `clientsComments` (Client.php:353): output only.
- Unbounded retry: the source recurses for as long as the server throttles. The model stops when the script is used up and reports `Exhausted`.
- liquidplanner.php (a legacy client without throttle handling) and examples/estimate.php (a usage script) are not part of this model.
- Resources.Tasks: its contract gives only the verb, the workspace prefix and the absence of a body. The URL's id and query parts are stated by `ResourceProperties.FalsyIdOmitted`, `TruthyIdAppendsSegment` and `ParamsAppendQuery`. The fixed `/tasks` segment is in the definition only.
- Resources.Timesheets: the contract gives only verb, prefix and body. The query part is stated by `ResourceProperties.ParamsAppendQuery`. The fixed `/timesheets/` segment with its trailing slash is in the definition only.
- Resources.TimesheetEntries: the contract gives only verb, prefix and body. The optional `/timesheets/<id>` scope and the query part are stated by the `ResourceProperties` lemmas.
- Resources.TaskTimesheetEntries: the contract gives only verb, prefix and body. The null-id URL is stated by `ResourceProperties.TaskTimesheetEntriesWithoutId`.
- Resources.Clients: the contract gives only verb, prefix and body. The id segment is stated by `ResourceProperties.FalsyIdOmitted` and `TruthyIdAppendsSegment`. The fixed `/clients` segment is in the definition only.
- Resources.ClientsComments: the contract gives only verb, prefix and body. The client id is concatenated unconditionally, and a falsy comment id is stated by `ResourceProperties.FalsyIdOmitted`.
- Resources.Members: the contract gives only verb, prefix and body. The id segment is stated by the `ResourceProperties` lemmas. The fixed `/members` segment is in the definition only.
- Resources.Member: the contract gives only verb, prefix and body. Delegation is stated by `ResourceProperties.MemberDelegatesToMembers`.
- Resources.Projects: the contract gives only verb, prefix and body. The id segment is stated by the `ResourceProperties` lemmas. The fixed `/projects` segment is in the definition only.
- Resources.Activities: the contract gives only verb, prefix and body. The id segment is stated by the `ResourceProperties` lemmas. The fixed `/activities` segment is in the definition only.
- Resources.ClientsCommentsDelete: the contract gives only verb, prefix and body. The path `/clients/<client>/comments/<comment>` is in the definition only.
- Resources.TasksDelete: the contract gives only verb, prefix and body. The path `/tasks/<id>` is in the definition only.
- Resources.TasksCreate: the contract gives only verb, prefix and the presence of a body. The body, `json_encode` of the data wrapped under `task`, would only restate the definition under an uninterpreted encoder.
- Resources.TasksTrackTime: as for TasksCreate. The body is the encoded data, and the path ends in `/track_time`.
- Resources.TasksCommentsCreate: as for TasksCreate. The data is wrapped under `comment`.
- Resources.TasksNoteCreate: as for TasksCreate. The data is wrapped under `note`.
- Resources.TasksLinkCreate: as for TasksCreate. The data is wrapped under `link`, and the path ends in `/links`.
- Resources.ClientsCreate: as for TasksCreate. The body wraps name, description and external reference under `client`.
- Resources.ProjectsCreate: as for TasksCreate. The body wraps the seven project fields under `project`.
- Resources.ActivitiesCreate: the contract says only that nothing is sent. The placeholder value is stated by `ResourceProperties.ActivitiesCreateSendsNothing`. The unreachable code after the `return` (Client.php:464-468) is not modelled.
