# Kernel patch lifecycle lambda, modelled in Dafny

The system is an event handler that patches the kernel of the running cloud instances carrying a tag
`Patch=<value>`. It reads the tag value from the event's `patch_tag` field, asks the instance inventory
for the tagged instances and keeps the running ones, then sends a remote update command to each instance
in turn. After each dispatch it polls the command's status: a 10-second sleep before each query, at most
30 queries, and it stops at the first terminal status (`Success`, `Failed`, `Cancelled`, `TimedOut`).
The batch stops at the first instance whose patch does not end in `Success`. The handler replies with
one of four shapes: a missing-tag error, `no_instances`, an error naming the failing instance, or
`success` with the list of patched instances.

The model has four modules:

- `Services` (`services.dfy`): the provider as oracles, and the calls the handler makes. A `Cloud`
  value bundles three total functions: the inventory query (tag key and value to reservations), the
  dispatch (instance id to a command id, or `None` when it raises) and the status query (command id,
  instance id and query number to a status string, or `Raised`). Calls are recorded in the order they are
  made: `DescribeInstances`, `SendCommand`, `Sleep(10)` and `GetCommandInvocation`. `GetInstancesByTag`,
  `RunPatchCommand` and `LambdaHandler` each return, as a real out-parameter, the `trace` of the calls
  they made. `PatchInstances` returns them as `runs`, one list of calls per instance, which
  `LambdaHandler` joins with `Concat`. `Dispatched(trace)` lists the instances a dispatch was attempted
  on, including a dispatch that raised.
- `InstanceSelector` (`instance_selector.dfy`): `get_instances_by_tag`, as the nested loop over
  reservations and instances. `RunningIds` is its specification.
- `PatchCommand` (`patch_command.dfy`): `run_patch_command`, as the dispatch followed by the counted
  poll loop with its early exit. The exception handler becomes the `None`/`Raised` cases. `Queries`,
  `PatchSucceeds` and `CommandTrace` specify how many queries are made, the verdict and the calls.
- `PatchHandler` (`patch_handler.dfy`): `lambda_handler`. Its patch loop is the method
  `PatchInstances`, which `LambdaHandler` calls once the selection is non-empty. `FirstFailure` gives
  the position of the first failing instance, `Patched` the prefix that gets dispatched, and
  `CommandTraces` the calls of patching a list of instances in turn, one command trace per instance.
  `Concat` joins those per-instance runs into the handler's single trace.

The tag value `event.get("patch_tag")` is falsy when the field is absent or is the empty string. The
event is therefore a `map<string, string>`.

## Model

| member | source | states |
|---|---|---|
| `InstanceSelector.GetInstancesByTag` | Lambda-patch-lifeCycle.py:57-77 | The nested loop returns exactly the selection specification `RunningIds` of the inventory reply for the given tag key and value. Its one call is the inventory query for that key and value. |
| `InstanceSelector.RunningPositionsPick` | Lambda-patch-lifeCycle.py:70-77 | The j-th selected id is the id of the record at the j-th of the positions `RunningPositions`, and that record's state name is `running`: nothing but running records is selected. |
| `InstanceSelector.RunningPositionsIncreasing` | Lambda-patch-lifeCycle.py:70-77 | Those positions are strictly increasing, so the selection keeps the order of the flattened reply, reservation by reservation. |
| `InstanceSelector.RunningPositionsComplete` | Lambda-patch-lifeCycle.py:70-77 | The position of every running record is among them: no running record is dropped. |
| `InstanceSelector.RunningInMembership` | Lambda-patch-lifeCycle.py:71-75 | An id is selected if and only if some record whose state name is `running` carries it. |
| `PatchCommand.QueriesFrom` | Lambda-patch-lifeCycle.py:99-105 | The poll loop makes between 1 and 30 status queries. No reply before the last one ends the loop, and when fewer than 30 are made, the last reply is a terminal status or an exception. This fixes the count as the first stopping reply or the 30-query ceiling. |
| `PatchCommand.PollTrace` | Lambda-patch-lifeCycle.py:99-101 | n rounds of the poll loop make 2n calls. |
| `PatchCommand.PollTraceShape` | Lambda-patch-lifeCycle.py:99-101 | In the poll loop's calls, sleeps and status queries alternate, starting with a sleep. |
| `PatchCommand.CommandTrace` | Lambda-patch-lifeCycle.py:88-105 | The calls of one patch command start with the dispatch. When the dispatch raises, there is nothing else. Otherwise between 1 and 30 sleep-and-query rounds follow. |
| `PatchCommand.CommandTraceShape` | Lambda-patch-lifeCycle.py:90-101 | After a successful dispatch, each status query comes right after one sleep, and every query is about the command id the dispatch returned, on this instance. |
| `PatchCommand.RunPatchCommand` | Lambda-patch-lifeCycle.py:79-114 | The dispatch, the counted poll loop with `break` and the exception handler return exactly the verdict `PatchSucceeds` and make exactly the calls `CommandTrace`. |
| `PatchCommand.SucceedsIffFirstStopIsSuccess` | Lambda-patch-lifeCycle.py:104-110 | The patch succeeds if and only if the dispatch does not raise and, within the first 30 queries, the first reply that ends the loop is the status `Success`. |
| `PatchCommand.NoTerminalStatusFails` | Lambda-patch-lifeCycle.py:99-110 | If 30 queries return only non-terminal statuses, exactly 30 queries are made and the verdict is false. |
| `PatchCommand.ExceptionFails` | Lambda-patch-lifeCycle.py:88-114 | An exception from the dispatch, or from any status query the loop makes, gives the verdict false. |
| `PatchCommand.CommandTraceTouches` | Lambda-patch-lifeCycle.py:90-101 | One patch command dispatches exactly once, to its own instance, and every dispatch or query in it is about that instance. |
| `PatchHandler.FirstFailure` | Lambda-patch-lifeCycle.py:37-49 | Gives the position of the first instance whose patch fails: every earlier instance succeeds and the one at that position fails. It is the list's length when all succeed. |
| `PatchHandler.CommandTracesDispatch` | Lambda-patch-lifeCycle.py:37-41 | Patching a list of instances in turn dispatches to exactly that list, in its order. |
| `PatchHandler.CommandTracesStayWithin` | Lambda-patch-lifeCycle.py:37-49 | Patching a list of instances in turn makes no dispatch and no status query about any instance outside the list. |
| `PatchHandler.PatchInstances` | Lambda-patch-lifeCycle.py:36-55 | Fail-fast. If instance k is the first whose patch fails, the reply is the error `Patch failed on instance <instances[k]>`. If every patch succeeds, the reply is `success` with all instances in their given order. The calls made are, run by run, the command traces of exactly the instances of `Patched`: `instances[..k+1]`, or all of them. |
| `PatchHandler.LambdaHandler` | Lambda-patch-lifeCycle.py:14-55 | An absent or empty `patch_tag` gives the missing-tag error with no call at all. Otherwise exactly one inventory query is made for `Patch=<value>`. No running instance gives `no_instances` with message `No running instances found with tag Patch=<value>` and no dispatch. Otherwise the reply and the dispatched prefix are those of the patch loop over the selection. The reply's status field is `error` exactly when the tag is missing or some selected instance fails to patch. |

## Left out

- The client construction and the region constant: the two services are the `Cloud` oracles.
- The 10-second pause itself: a sleep is recorded as a `Sleep(10)` call. No clock is modelled.
- Logging by `print`.
- The command text and the command document name. A dispatch is recorded as `SendCommand(instanceId)` only.
- Exceptions from the inventory query, which are not caught and leave the handler. The model assumes the query returns a reply.
- A missing `CommandId` or `Status` key in a reply. The model treats the dispatch reply as a command id (or a raised dispatch) and each query reply as a status (or a raised query).
- Falsy `patch_tag` values of other types (`0`, `False`, an empty list): the event is a map from strings to strings. The Lambda `context` argument is not modelled.
- The reply's fields beyond status, message and the list of patched instances. `PatchResult.StatusField` gives the status string.
- A selection that lists the same instance id twice. The dispatch and status oracles are functions of the instance id alone, so a repeated id gets the same command id and the same verdict each time. The source would dispatch again and get a fresh command id. The model assumes each id is dispatched at most once per invocation; instance ids in an inventory reply are unique.
- Re-invocation: the handler keeps no state between invocations, so a second run over the same tag selects and dispatches again. The model has no state to carry over.
- The loop of `lambda_handler` over the instances is not inline: it is the separate method `PatchInstances`, which `LambdaHandler` calls with the same effect. It returns the calls of each instance as a separate run, and `LambdaHandler` joins them with `Concat`.
- The 30-query ceiling may be reached while the command is still running. The last status seen then is not `Success`, so the patch counts as failed (`NoTerminalStatusFails`). The model keeps this behaviour as written.
