# rotest: run options, test-control views and the resource-manager client, in Dafny

This project models the small sequential pieces of rotest that sit around a
test run:

- **Resource-identifier overrides** (`-r resource_a=demo_res1,resource_b.ip_address=10.0.0.1`).
  The string is parsed into a map from request name to field constraints.
  These constraints are merged into the resource requests of a test tree
  (suites, cases, flows, blocks).
  The run fails when an override names a request that no test declares.
- **Runner choice and repeat count.** A positive process count selects the
  multiprocess runner, which refuses debugging. A run is repeated
  `max(delta_iterations, 1)` times.
- **The server's test-control views.** `start_test_run` builds the run's
  test-data objects from the uploaded tree and registers them under a new
  session token. `start_test` starts one test. `update_resources` replaces
  the set of resources a test used.
- **The server's bulk field update** (`update_fields`). The changes are
  written into the records matching a filter, or into all records when the
  filter is absent or empty.
- **The client's connection flag** and the `update_fields` request it sends.

Modules:

| module | file |
|---|---|
| `Wrappers` | `wrappers.dfy` (Option, Result, Outcome) |
| `Strings` | `strings.dfy` (Python's `split`, `split(sep, 1)` and `join`) |
| `Runner` | `runner.dfy` |
| `Api` | `api.dfy` (status codes, resource descriptor, change request) |
| `TestControl` | `test_control.dfy` |
| `ResourceControl` | `resource_control.dfy` |
| `Client` | `client.dfy` |

Modelling choices:

- **Imperative code is modelled imperatively.** The parsing loop, the
  per-test request update, the recursive tree walk, the repeat loop and
  `_create_test_data` are methods with loops. Each is proved equal to a
  reference function, and the lemmas are stated about that function.
- **The session store is a class.** Its methods replace the session they
  act on and leave the others alone.
- **The bulk update works in place** on an array of records.
- **A session's test-data objects form a node store.** They are numbered in
  creation order, and children and the id map hold those numbers. This
  keeps the sharing of the original objects. When two uploaded tests share
  an id, the later one replaces the earlier map entry, but the earlier
  object stays linked in the tree.
- **Integers are unbounded.** No width matters anywhere in this code.

## Model

| member | source | states |
|---|---|---|
| Strings.Split | src/rotest/core/runner.py:177 | `str.split` on one character: at least one piece, and no piece holds the separator |
| Strings.JoinSplit | src/rotest/core/runner.py:177 | joining the pieces of a split with the separator gives the string back |
| Strings.SplitJoin | src/rotest/core/runner.py:183 | splitting a join of separator-free pieces gives the pieces back |
| Strings.SplitNone | src/rotest/core/runner.py:183-185 | a key without `.` splits into the key alone, so it names the whole request |
| Strings.SplitSingle | src/rotest/core/runner.py:183-184 | a key splits into one piece exactly when it holds no `.` |
| Strings.SplitOnce | src/rotest/core/runner.py:180 | `split('=', 1)`: None exactly when there is no `=`; otherwise the head holds no `=`, and head, `=` and tail rebuild the entry |
| Strings.SplitOnceAt | src/rotest/core/runner.py:180 | the split happens at the first `=`, so the value keeps any later `=` |
| Strings.SplitAt | src/rotest/core/runner.py:177 | splitting at a known first separator gives the head, then the split of the tail |
| Runner.TargetUndotted | src/rotest/core/runner.py:183-185 | an undotted key `k` sets field `name` of request `k` |
| Runner.TargetDotted | src/rotest/core/runner.py:186-192 | a key `r.a.b` sets field `a__b` of request `r` |
| Runner.EntryOverride | src/rotest/core/runner.py:180-182 | an entry yields an override exactly when it holds a `=` |
| Runner.EntryValueAfterFirstEquals | src/rotest/core/runner.py:180 | the value is everything after the first `=`, later `=` included; the target comes from the key before it |
| Runner.ParseEntries | src/rotest/core/runner.py:180-192 | on success, one override per entry |
| Runner.ParseEntriesFirstMissing | src/rotest/core/runner.py:180-182 | the first entry without `=` is the error of the whole parse |
| Runner.ParseFromAgrees | src/rotest/core/runner.py:177-194 | the loop's left-to-right fill of the map equals folding the parsed overrides, and it stops with the same error |
| Runner.ParseResourceIdentifiers | src/rotest/core/runner.py:155-194 | the method returns exactly the reference parse `Parse` of the string |
| Runner.ParseEmpty | src/rotest/core/runner.py:174-175 | an absent or empty string gives the empty map |
| Runner.ParseEntriesFails | src/rotest/core/runner.py:180-182 | parsing fails exactly when some entry has no `=` |
| Runner.ParseFailsIff | src/rotest/core/runner.py:174-182 | a non-empty string fails exactly when one of its comma-separated entries has no `=` |
| Runner.ParseEntriesOverrides | src/rotest/core/runner.py:180-192 | the i-th override is the override of the i-th entry |
| Runner.AccumulateDomain | src/rotest/core/runner.py:179-192 | a (request, field) pair is in the map exactly when some override wrote it |
| Runner.AccumulateRequests | src/rotest/core/runner.py:179-192 | the map's requests are exactly the requests named by the overrides; entries for one request merge into one inner map |
| Runner.AccumulateLastWins | src/rotest/core/runner.py:183-192 | a field's value is that of the last override writing it |
| Runner.ParseEntriesSnoc | src/rotest/core/runner.py:177-182 | parsing one more entry that holds `=` appends its override |
| Runner.AccumulateSnoc | src/rotest/core/runner.py:183-192 | accumulating one more override writes it into the map built so far |
| Runner.ParseEntriesStep | src/rotest/core/runner.py:182-192 | one more well-formed entry appends its override and writes it into the map |
| Runner.UndottedEntry | src/rotest/core/runner.py:180-185 | `a=v` with a plain `a` sets `name` of `a` to `v` |
| Runner.DottedEntry | src/rotest/core/runner.py:180-192 | `b.f=v` sets field `f` of `b` to `v` |
| Runner.TwoEntriesSplit | src/rotest/core/runner.py:177 | two comma-free entries joined by a comma split back into the two |
| Runner.TwoEntriesOverrides | src/rotest/core/runner.py:180-192 | two well-formed entries give their two overrides in order |
| Runner.TwoOverridesAccumulate | src/rotest/core/runner.py:179-192 | overrides of two different requests give two separate inner maps |
| Runner.TwoEntriesParse | src/rotest/core/runner.py:174-194 | two entries for different requests parse into two separate inner maps |
| Runner.ExampleFirstOverride | src/rotest/core/runner.py:164-166 | `resource_a=demo_res1` sets `name` of `resource_a` |
| Runner.ExampleSecondOverride | src/rotest/core/runner.py:164-166 | `resource_b.ip_address=10.0.0.1` sets `ip_address` of `resource_b` |
| Runner.ParseDocumentedExample | src/rotest/core/runner.py:164-169 | the documented input parses to exactly the documented map |
| Runner.NamesOfSnoc | src/rotest/core/runner.py:215 | each further request adds its own name to the names seen |
| Runner.UpdatedRequestMeaning | src/rotest/core/runner.py:212-214 | a request named in the identifiers takes every given constraint and keeps its others; any other request is unchanged; names are kept |
| Runner.UpdateTestResources | src/rotest/core/runner.py:197-217 | every request is updated as above, and the names returned are exactly the request names that are keys of the identifiers |
| Runner.UpdateRequests | src/rotest/core/runner.py:220-248 | the whole tree is rewritten, and the names returned are exactly the tree's request names that are keys of the identifiers |
| Runner.RewriteKeepsNames | src/rotest/core/runner.py:237-248 | rewriting keeps every request name of the tree |
| Runner.NamesUpToKept | src/rotest/core/runner.py:240-242 | rewriting keeps the request names of a suite's components |
| Runner.RewriteNoIdentifiers | src/rotest/core/runner.py:209-217 | without identifiers nothing changes |
| Runner.RewriteIdempotent | src/rotest/core/runner.py:209-217 | applying the same identifiers twice equals applying them once |
| Runner.SubsetSameSize | src/rotest/core/runner.py:265 | a subset with as many elements is the whole set, so comparing sizes detects a missing name |
| Runner.UpdateResourceRequests | src/rotest/core/runner.py:251-269 | the tree is rewritten; the call fails exactly when some identifier names no request of the tree, and then it reports exactly those names |
| Runner.GetRunner | src/rotest/core/runner.py:28-76 | multiprocess exactly for a positive process count, then with that many workers; fails exactly when debugging is also asked; the other settings are passed through |
| Runner.DebugOnlyInBaseRunner | src/rotest/core/runner.py:53-65 | no runner returned debugs inside worker processes |
| Runner.TimesToRun | src/rotest/core/runner.py:111 | the run count is `max(delta, 1)`, with an absent delta counting as below 1 |
| Runner.DeltaIterationsCases | src/rotest/core/runner.py:96-101 | a count of 0 runs normally once, 1 runs the delta tests once, and a larger count runs the delta tests that many times |
| Runner.Run | src/rotest/core/runner.py:79-127 | fails exactly as `get_runner` does; otherwise the runner it builds has delta mode on exactly for a present non-zero count (`bool(delta_iterations)`), and it returns `TimesToRun(delta)` results, the i-th being the i-th run of the one runner |
| TestControl.ChildRefs | src/rotest/api/test_control/start_test_run.py:55-59 | an object gets one child per subtest attached |
| TestControl.BuiltSize | src/rotest/api/test_control/start_test_run.py:49-58 | one object is created per description of the tree |
| TestControl.BuiltAllSize | src/rotest/api/test_control/start_test_run.py:55-58 | one object per description, for the subtrees of the first subtests |
| TestControl.RegisteredAppend | src/rotest/api/test_control/start_test_run.py:52 | registering two lists of descriptions in turn equals registering their concatenation |
| TestControl.AttachChild | src/rotest/api/test_control/start_test_run.py:55-59 | creating the next subtree and attaching its object extends the store by that subtree |
| TestControl.RegisterChild | src/rotest/api/test_control/start_test_run.py:52-58 | registering the next subtree extends the id map by that subtree's ids |
| TestControl.TreeStart | src/rotest/api/test_control/start_test_run.py:48-52 | after its own object is created and registered, a test has no children yet |
| TestControl.TreeEnd | src/rotest/api/test_control/start_test_run.py:54-62 | once all subtests are attached, the store and the map are those of the whole tree |
| TestControl.CreateTestData | src/rotest/api/test_control/start_test_run.py:38-62 | the root is the first new object; the store grows by exactly the tree's objects; the map is the old map with every description's id registered in creation order |
| TestControl.PreHead | src/rotest/api/test_control/start_test_run.py:48-52 | the root's description is the first one handled |
| TestControl.PreAllPrefix | src/rotest/api/test_control/start_test_run.py:55 | subtrees are handled in the order of the `subtests` list |
| TestControl.ChildRefsIncreasing | src/rotest/api/test_control/start_test_run.py:55-59 | a later subtest's object has a strictly larger number, so each child is a distinct object, even for identical subtest descriptions |
| TestControl.ChildRefsAt | src/rotest/api/test_control/start_test_run.py:55-59 | the j-th child is the object created right after the first j subtrees |
| TestControl.SubtestPosition | src/rotest/api/test_control/start_test_run.py:55-58 | the j-th subtest is handled right after the first j subtrees |
| TestControl.NodeForKeep | src/rotest/api/test_control/start_test_run.py:55-58 | objects created later do not change what an earlier object was made from |
| TestControl.NodeForShift | src/rotest/api/test_control/start_test_run.py:55-58 | objects created before a subtree do not change what its objects were made from |
| TestControl.BuiltRoot | src/rotest/api/test_control/start_test_run.py:48-59 | the root object is made from the top-level description, and its children from its subtests in order |
| TestControl.BuiltShape | src/rotest/api/test_control/start_test_run.py:48-62 | every object is a new, not started object made from its description and sharing the run data; its children are the objects of that description's subtests, in order, each at the exact position just past the earlier subtests' subtrees; a description without `subtests` gives a leaf |
| TestControl.BuiltAllShape | src/rotest/api/test_control/start_test_run.py:55-59 | the same, for the objects of the first subtrees |
| TestControl.RegisteredKeys | src/rotest/api/test_control/start_test_run.py:52 | after registration the map holds the old ids plus the id of every description |
| TestControl.RegisteredLastWins | src/rotest/api/test_control/start_test_run.py:52 | an id refers to the object of the last description carrying it |
| TestControl.RegisteredKeepsOthers | src/rotest/api/test_control/start_test_run.py:52 | ids no description carries keep their old object |
| TestControl.RegisteredBound | src/rotest/api/test_control/start_test_run.py:52 | every entry refers to an old object or to one of the new ones |
| TestControl.RegisteredSize | src/rotest/api/test_control/start_test_run.py:52 | with distinct new ids, the map grows by one entry per description |
| TestControl.NewSessionWellformed | src/rotest/api/test_control/start_test_run.py:72-84 | the new session's references all point into its store; its main test is the object of the top-level description; its ids are those of the whole tree |
| TestControl.WithNode | src/rotest/api/test_control/start_test.py:36-39 | replacing one object keeps the session well formed and leaves every other object and the map unchanged |
| TestControl.Started | src/rotest/api/test_control/start_test.py:13-38 | `start()` puts the test in progress with the given start time and changes nothing else of it |
| TestControl.WithResources | src/rotest/api/test_control/update_resources.py:41-46 | the test's resources become exactly the given set, and nothing else of it changes |
| TestControl.ResolvedUpToSize | src/rotest/api/test_control/update_resources.py:43-46 | a test never holds more resources than there were descriptors |
| TestControl.ResolvedUpToStep | src/rotest/api/test_control/update_resources.py:45-46 | each descriptor adds its resource to those of the previous ones |
| TestControl.ResolvedUpToRepeat | src/rotest/api/test_control/update_resources.py:45-46 | a descriptor resolving to a resource already added adds nothing |
| TestControl.SessionStore.constructor | src/rotest/api/test_control/start_test_run.py:64-65 | the store starts with no sessions; the `sessions` dict comes from session middleware outside this model, so the empty start is a modelling assumption |
| TestControl.SessionStore.StartTestRun | src/rotest/api/test_control/start_test_run.py:64-88 | the token now maps to the new session; every other token keeps its session; the reply is 200 with the token |
| TestControl.SessionStore.StartTest | src/rotest/api/test_control/start_test.py:28-41 | an unknown token or test id fails and changes nothing; otherwise only the addressed test is started, and the reply is 204 |
| TestControl.SessionStore.UpdateResources | src/rotest/api/test_control/update_resources.py:30-50 | an unknown token or test id fails and changes nothing. Otherwise the call succeeds exactly when every descriptor resolves, and the test then holds exactly the resolved resources, old ones discarded, with reply 204. On failure the error names the first unresolved descriptor, and the test keeps the resources added before it |
| ResourceControl.AppliedMeaning | src/rotest/api/resource_control/update_fields.py:42-46 | a selected record takes every changed field's value and keeps its other fields; any other record is unchanged |
| ResourceControl.AbsentFilterAsEmpty | src/rotest/api/resource_control/update_fields.py:42-46 | an absent filter and an empty filter make the same update of the table |
| ResourceControl.UpdateFields | src/rotest/api/resource_control/update_fields.py:29-48 | the table becomes exactly the updated table, and the reply is 204 |
| ResourceControl.NoFilterUpdatesAll | src/rotest/api/resource_control/update_fields.py:44-46 | with an absent or empty filter, every record receives the changes |
| ResourceControl.UnmatchedUnchanged | src/rotest/api/resource_control/update_fields.py:42-43 | with a non-empty filter, a record that does not match is unchanged |
| ResourceControl.AppliedTwice | src/rotest/api/resource_control/update_fields.py:42-46 | updating a record a second time changes nothing more |
| ResourceControl.UpdateIdempotent | src/rotest/api/resource_control/update_fields.py:42-46 | the same update applied twice gives the table of applying it once |
| Client.AbstractClient.IsConnected | src/rotest/management/client/client.py:66-72 | reports the connection flag that `connect`, `disconnect` and the `with` block set |
| Client.AbstractClient.constructor | src/rotest/management/client/client.py:33-56 | a new client keeps its settings and is not connected |
| Client.AbstractClient.Connect | src/rotest/management/client/client.py:58-64 | connected afterwards, whatever the state before |
| Client.AbstractClient.Disconnect | src/rotest/management/client/client.py:74-80 | not connected afterwards; it never fails, even when never connected |
| Client.AbstractClient.Enter | src/rotest/management/client/client.py:82-85 | the `with` block runs on the client itself, connected |
| Client.AbstractClient.Exit | src/rotest/management/client/client.py:87-89 | after the `with` block the client is not connected |
| Client.NoFilterSendsEmptyFilter | src/rotest/management/client/client.py:100-103 | a call without a filter sends exactly the request of a call with an empty filter |
| Client.AbstractClient.UpdateFields | src/rotest/management/client/client.py:91-114 | the call fails exactly when the reply is a bad request, and then carries the reply's details |
| Client.NoFilterReachesAllRecords | src/rotest/management/client/client.py:100-108 | a call without a filter makes the server update every record of the model |

## Left out

- Django persistence is not modelled: `save`, `objects.create`, `objects.get` and `filter().update()` against a database. The store is the model's own state.
- `uuid4`, the run-data record and the requesting host are parameters of `StartTestRun`. The time `start()` records is a parameter of `StartTest`.
- Class decoding (`JSONParser.decode`) is not modelled: an object records the class code it was given.
- `ResourceDescriptor.decode` followed by `objects.get` is the `resolve` parameter of `UpdateResources`. A lookup that finds several records fails like one that finds none.
- `extract_type` is left to the caller: `UpdateFields` receives the table of the resource type.
- Django field validation is not modelled: unknown fields, lookups such as `__gt` and type conversion. A filter field missing from a record does not match.
- TestControl.CreateTestData: malformed descriptions are outside the model. A description missing `class`, `name` or `id` raises `KeyError`, and a `subtests` value that is not a list raises `TypeError`; the source raises these after earlier objects were already created and registered, and the `TestDict` datatype cannot express such input.
- TestControl.SessionStore.constructor: the session middleware that owns the `sessions` dict is not part of this model; the store is assumed to start empty.
- TestControl.Started: the body of `start()` is not part of this model. It is modelled from its doc comment (in progress, start time set) and sets both unconditionally.
- Runner.UpdateTestResources, Runner.UpdateRequests: test classes and their request objects are values. The in-place `kwargs.update` on request objects that several test classes might share is therefore not captured.
- Runner.Run: running a test (`test_runner.run`) is the `execute` parameter. The outputs, config, run name and stream settings are not modelled.
- The runner classes themselves, `main`, `run_tests`, config-file parsing, output-option parsing and `print_test_hierarchy` are command-line plumbing and I/O.
- Test discovery is filesystem walking and module import. The result monitor is timer threads.
- Client: the logger, the message counter, the parser and the `Requester` HTTP transport are not modelled. Sending a request is the `send` parameter.
- The doc comment of `disconnect` says it raises `RuntimeError` when not connected, but the code never raises. The model follows the code.
