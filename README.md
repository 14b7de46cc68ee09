# keda-domino: the event-reaction core, in Dafny

keda-domino is a small Kubernetes agent. It watches the Event stream of
one or more namespaces. When the KEDA operator reports that a scaled
object was activated or deactivated, it patches the replica count of the
object's PostgreSQL StatefulSet to 1 or 0. This project models that
reaction path of `main.go` and proves its properties:

- **Decision** (`Classifier`): an event counts only if its source component
  is `keda-operator`. `KEDAScaleTargetActivated` gives 1 replica and
  `KEDAScaleTargetDeactivated` gives 0; any other reason gives nothing. The
  target is the involved object's name with one trailing `-core` removed
  (Go's `strings.TrimSuffix`, in `GoStrings`), followed by
  `-database-postgresql`, in the involved object's namespace.
- **Patch body** (`Format`): `fmt.Sprintf("{\"spec\":{\"replicas\":%d}}", n)`
  for an `int32` `n`, with `%d` written out. A parser for the same text
  proves that the body carries exactly `n`.
- **Configuration** (`Config`): `os.Getenv` over an environment map, and
  `getEnvAsSlice` with Go's `strings.Split` semantics (empty fields kept,
  nothing trimmed). `run` refuses an empty `TARGET_NAMESPACES` first.
- **Sync gate and handlers** (`Agent`): a class holds the local state of
  `run` that the handler closures share: the informer namespaces, the
  `synced` flag, and the log of issued `Patch` calls. It also keeps the
  calls the cluster refused, which the source only logs. `synced` starts
  false. Only `WaitForSync` writes it, and only to arm it once every
  informer has synced. Add notifications are dropped while it is false.
  Update notifications are handled whatever it says, as the code does.
  The pure function `Reactions` gives the patch calls that a sequence of
  notifications issues. `OnAdd` and `OnUpdate` are each proved to append
  exactly one step of it.

The cluster's answer to a patch is a parameter (`cluster: PatchCall ->
bool`). A refused patch is recorded in `failedPatches`, and handling
returns normally. The informers' sync outcome is also a parameter
(`hasSynced: string -> bool`), and so is the outcome of building the client.

Points of the code's behaviour that the model keeps as they are:

- Update notifications are not gated (main.go:58-61); only Add
  notifications wait for `synced`.
- The target suffix is the fixed `-database-postgresql`; there is no
  allow-list of application names.
- Name derivation is not injective. `Classifier.TargetNameCollision` shows
  that `x` and `x-core` collide exactly when `x` does not itself end in
  `-core`. `Classifier.TargetNameCollisionsOnly` shows these are the only
  collisions.
- `TARGET_NAMESPACES=ns1,` is accepted as the namespaces `ns1` and `""`
  (`Config.TrailingCommaKeepsEmptyNamespace`). An informer on `""` watches
  every namespace.

## Model

| member | source | states |
|---|---|---|
| GoStrings.TrimSuffix | main.go:128 | if the name ends with the suffix, the result followed by the suffix is the name; otherwise the result is the name unchanged |
| GoStrings.TrimSuffixRemovesOnce | main.go:128 | only one trailing copy is removed: `x-core-core` becomes `x-core` |
| GoStrings.Split | main.go:174 | `strings.Split` gives one more field than there are separators, and no field contains the separator |
| GoStrings.JoinSplit | main.go:174 | joining the fields of a split with `,` gives back the input, so nothing is trimmed or dropped |
| GoStrings.SplitJoin | main.go:174 | splitting joined fields that contain no separator gives back the fields (the inverse round trip) |
| GoStrings.SplitPrefix | main.go:174 | splitting `p + t`, where `p` holds no separator, glues `p` onto the first field of `t`'s split |
| Format.DigitChar | main.go:140 | a digit value below 10 becomes a digit character that reads back as that value |
| Format.NatDigits | main.go:140 | the `%d` digits of a natural number are non-empty, all digits, start with `0` only for zero, and are a single digit below ten |
| Format.DigitsRoundTrip | main.go:140 | reading back the digits of a natural number gives the number |
| Format.Decimal | main.go:140 | `%d` loses nothing: every integer, negative ones included, is read back from its text by a parser that accepts no leading zero and no `-0` |
| Format.DigitsCanonical | main.go:140 | a run of digits without a leading zero is exactly the `%d` text of the number it denotes |
| Format.ParseDecimalCanonical | main.go:140 | a text reads back as N exactly when it is the `%d` text of N, so each replica count has one spelling |
| Format.ParseDecimalRefusesOtherSpellings | main.go:140 | `-0`, `007`, `+1` and the empty text are not `%d` output and are refused |
| Format.PatchBody | main.go:140 | the body `{"spec":{"replicas":N}}` reads back as exactly N, for every int32 N, with N in its one `%d` spelling |
| Format.PatchBodyInjective | main.go:140 | two bodies are equal exactly when their replica counts are |
| Format.PatchBodyText | main.go:140 | the bodies for 0 and 1 replicas are exactly the texts `{"spec":{"replicas":0}}` and `{"spec":{"replicas":1}}` |
| Classifier.TargetName | main.go:128-131 | the target is the name minus 5 characters followed by `-database-postgresql` if it ends in `-core`, else the whole name followed by that suffix |
| Classifier.TargetNameShape | main.go:128-131 | every target ends in `-database-postgresql`, and what precedes that suffix is the trimmed involved name |
| Classifier.TargetNameCollision | main.go:128-131 | `x` and `x-core` map to the same StatefulSet if and only if `x` does not end in `-core`, so the mapping is not injective |
| Classifier.TargetNameCollisionsOnly | main.go:128-131 | two names with the same target are equal or differ by exactly one trailing `-core` |
| Classifier.Classify | main.go:107-132 | a decision exists iff the source is `keda-operator` and the reason is Activated or Deactivated; replicas is 1 iff Activated and 0 iff Deactivated; the target name is derived from the involved name; the namespace is the involved object's |
| Config.GetEnvAsSlice | main.go:168-175 | an empty or unset variable gives no fields; otherwise the fields number the commas plus one, contain no comma, and join back to the value |
| Config.TargetNamespaces | main.go:30-33 | `run` fails with "TARGET_NAMESPACES env var is required" iff the variable is empty or unset; otherwise the namespaces are exactly the comma-split fields: at least one, one more than the commas, none holding a comma, and they join back to the value |
| Config.TrailingCommaKeepsEmptyNamespace | main.go:168-175 | `ns1,` passes the check as the two namespaces `ns1` and the empty name |
| Config.GetEnv | main.go:169 | `os.Getenv`: the value of a set variable, and the empty string for an unset one |
| Config.Message | main.go:29-76 | the text `run` returns for each error: "TARGET_NAMESPACES env var is required", "failed to sync informer cache for namespace " followed by exactly the namespace, or the client error unchanged |
| Agent.Reaction | main.go:107-144 | handling one event issues at most one patch, and exactly one iff it is a KEDA scale event; that patch targets the derived StatefulSet in the event's namespace, and its body sets 1 for Activated and 0 for Deactivated |
| Agent.ReactionOfScaleEvent | main.go:128-140 | a KEDA activation or deactivation issues exactly the patch of its target with body `PatchBody(1)` or `PatchBody(0)` |
| Agent.Reactions | main.go:51-61 | the patch calls of a notification sequence at a fixed gate, with Adds only when armed and Updates always, each through `handleEvent`; each notification issues at most one patch |
| Agent.Refused | main.go:142-144 | there are no more failure records than issued calls, and every recorded call is one the cluster refused; exact counts are stated in `Agent.RefusedCounts` |
| Agent.RefusedCounts | main.go:142-144 | one failure record per refused Patch: each call appears among the failures as often as it was issued if the cluster refuses it, and never if it accepts it |
| Agent.ReactionsAppend | main.go:51-61 | the patches of two successive notification runs are the patches of the first run followed by those of the second |
| Agent.RefusedAppend | main.go:141-144 | the refused calls of two successive runs of calls are those of the first followed by those of the second |
| Agent.InitialListingIssuesNothing | main.go:51-54 | Add notifications delivered before the gate is armed issue no patch, whatever they carry |
| Agent.UpdatesBypassGate | main.go:58-61 | before arming, Update notifications issue exactly the patches they would issue after arming |
| Agent.ArmedAddEqualsUpdate | main.go:51-61 | once armed, an Add and an Update of the same event issue the same patches |
| Agent.Agent.constructor | main.go:43-44 | `synced` starts false, with no informers and no patches |
| Agent.Agent.Watch | main.go:44-69 | one informer per target namespace is added, in order |
| Agent.Agent.WaitForSync | main.go:71-76 | no error iff every informer synced, and then `synced` is armed; otherwise the error names the first informer that did not sync and `synced` is unchanged |
| Agent.Agent.ScaleStatefulSets | main.go:137-145 | exactly one Patch call with the body for the replica count is issued; a refusal is recorded and not propagated |
| Agent.Agent.HandleEvent | main.go:107-135 | following the source's branches, the log grows by exactly `Reaction(ev)`, and the refused calls by those the cluster refuses |
| Agent.Agent.OnAdd | main.go:51-57 | the log grows by one step of `Reactions` for an Add; while `synced` is false nothing changes |
| Agent.Agent.OnUpdate | main.go:58-61 | the log grows by `Reaction` of the new event, whatever `synced` says |
| Agent.Run | main.go:29-76 | an empty `TARGET_NAMESPACES` fails first, then a client failure; otherwise one informer per namespace, and `synced` is armed iff no error, which happens iff every informer synced; a sync error names the first namespace, in `TARGET_NAMESPACES` order, whose informer did not sync (main.go:71-74); `Run` itself issues no patch |
| Agent.RestartReplay | main.go:43-76 | an activation of `app-core` in `ns1` replayed as an Add before arming issues nothing; the same event as an Update afterwards issues exactly one patch of `app-database-postgresql` in `ns1` with body `{"spec":{"replicas":1}}` |
| Agent.RefusedPatchThenNext | main.go:141-144 | after a refused patch, the next event's patch is still issued, and only the refused one is recorded as failed |

## Left out

- `newClientset` (main.go:86-105) resolves credentials through client-go. `Agent.Run` takes its outcome as a parameter, and `ClientsetUnavailable` carries whatever error it produced.
- `AddEventHandler` can return an error (main.go:63-65). That happens only for a stopped informer, which cannot occur here, so the model has no such path.
- Informer construction, the `informer.Run` goroutines and `cache.WaitForCacheSync` (main.go:46-75) are watch transport and concurrency. Only their outcome is modelled, as a sync verdict per namespace.
- Agent.Run: handler calls during the sync wait are not interleaved. In the source each informer starts at main.go:68, before the wait at main.go:71-75. So an Update delivered during the wait goes through the ungated handler and issues a patch before `synced` is set at main.go:76. An Add delivered then, for instance while one informer has synced and another is still syncing, is dropped for good. The class methods allow both orders (`OnUpdate` on an unarmed agent issues its patch), but `Run` does not exercise them.
- Agent.Agent.WaitForSync: the sync verdict is a function of the namespace, so two informers on the same namespace always get the same verdict. Also, the stop channel is closed only when `run` returns, so in the source a failed wait is possible only in principle.
- The unsynchronised concurrent reads and writes of `synced` across goroutines are left out. The gate is modelled sequentially, as one handler call at a time. `informer.HasSynced` (main.go:72) reports only that the informer's store has synced. client-go feeds handlers asynchronously, so a replayed Add of the initial listing may reach the handler after arming and issue a patch. `Agent.InitialListingIssuesNothing` and `Agent.RestartReplay` cover only the order in which the replay is handled before arming.
- The semantics of the `StatefulSets().Patch` call and of `StrategicMergePatchType` (main.go:141) belong to the cluster. The call is recorded in a log, and the cluster's answer comes from an oracle.
- `healthCheck`, `healthHandler` and blocking on the stop channel (main.go:78-83, 147-166) are HTTP plumbing. `Agent.Run` ends where the agent starts serving.
- `slog` records, `fmt.Fprintf` to standard error and `os.Exit` (main.go:22-27) are I/O. `Config.Message` keeps the error texts; the only log entry kept is the record of a refused patch.
- The commented-out MinIO scaling (main.go:133-134) is dead code.
- `GoStrings.Split` models `strings.Split` for a one-character separator only, which is the only kind this program uses. Go strings are byte sequences, while the model's strings are sequences of Unicode characters. For the ASCII `-core`, `-database-postgresql` and `,` on valid UTF-8 this makes no difference, and Kubernetes names and namespaces are ASCII.
