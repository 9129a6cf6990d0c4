# Verified model of the fencing operator

The fencing operator watches nodes, jobs and ConfigMaps of a Kubernetes
cluster.  When a node is lost it creates a FencingRequest; for a request it
chooses a configuration and a method, turns the method into a Job, and records
in the request how the job went.  This project models that behaviour in Dafny
and proves what every run of it keeps.

| file | models |
|---|---|
| `ConfigTree.dfy` | the configuration tree and its path lookups (`pkg/config/config.go`) |
| `Mechanisms.dfy` | methods and mechanisms, and the two argument encodings (`mechanism.go`) |
| `CommandSlices.dfy` | the backing array that the commands of one mechanism may share |
| `JobBuilder.dfy` | the job made for a method, with its secrets (`createFencingJob`) |
| `Requests.dfy` | requests, jobs and their labels (`types.go`, `request.go`) |
| `Registry.dfy` | the registry of configurations (`HandleConfigMap`) |
| `Selection.dfy` | choosing a configuration and a method |
| `Controller.dfy` | the operator and its environment as a transition system |
| `Safety.dfy` | the invariant of all runs, and what follows from it |
| `Runs.dfy` | the registry, fatal choices, request creation and cancellation over runs |
| `Conversation.dfy` | one handler under one script of answers and of others' moves |
| `Outcomes.dfy` | what handling an event comes to, said of the script and the records alone |
| `Operator.dfy` | the handlers as written, each shown to end exactly where the transition system drives it |
| `Witnesses.dfy` | concrete runs and values on which the code departs from what it promises |
| `Options.dfy` | optional values |

`dafny verify dfyconfig.toml` checks everything.

## How the pieces fit

A state of `Controller` holds the stored requests with their versions, the job
table, the registry, the histories (request names ever given, jobs ever
accepted, creations answered AlreadyExists, job snapshots ever handed to the
operator, judgements that completed a request, handlers that gave up) and the
handlers in flight, each with the copy it read.  A step is the piece of one handler between two of its
API calls, or a move of the environment: job counters change in any way,
requests come and go, ConfigMaps change, any API call fails.  A run is any list
of enabled steps, so handlers interleave freely and copies go stale.

The handlers in `Operator` are ordinary code over a mutable `FencingRequest`
and a `Cluster`.  What a handler does not decide is fixed in advance by the
script of the cluster, a constant: the server's answer to its n-th call, what
the others do before that call takes effect, and the order of each range.
`Cluster.Await` plays the others and returns the answer, so no handler can
choose either.  A script can have the others do anything they can do in a run
(`EveryRunIsPlayed`) and nothing else (`PlayIsARun`).

`Conversation.Drive` says, from the transition system alone, where a handler
ends under a script.  Each handler in `Operator` is proved to end in exactly
that state, after exactly that many calls, for every script.  A drive is a run
(`DriveIsARun`), so the theorems on runs hold of it.

`Outcomes` says what that end is without the steps of the system: which calls
are made, what each finds, and which record, job or request the world has at
the end, field by field.  Each handler's contract promises its outcome, and
`Operator.Handle` promises for every event of a run that it is answered so
(`EventAnswered`) and that the invariant of all runs is kept.  A slot (`me`) is one handler at a time; `Cluster.sys.tasks`
says where each stands, and no handler reads it.

Go leaves the order of a range over a map open.  Such loops take an arbitrary
remaining key, or an arbitrary order of the keys, so their contracts hold for
every order.

Assumptions on the environment:

- `action.Update` takes effect only on the current version of a request and
  otherwise changes nothing.  Whether a successful update tells the copy its
  new version is open, and so is whether `ActiveJob` and `ActiveMethod`, which
  share one JSON tag, survive being stored.
- Generated names are not empty and are never given twice.  The server may
  accept a job and still return an unreadable reply, may answer
  AlreadyExists, or may reject.
- Listings return what the label or field selector asks for, or fail.  Label
  values are valid, since the label library turns a selector with an invalid
  value into one that selects everything.
- An owner reference, where there is one, has a name; owners are matched by
  name, as the code does.
- A user who creates a request gives it a name never used before, and a blank
  status.
- Each retry loop makes one attempt, because its closure returns the error.
- Handlers read and write the registry atomically.
- Pieces of a handler that make no API call read nothing the others write, so
  the others are given no turn before them.
- A panic ends the handler that met it: neither the restart of the operator nor
  the loss of its registry that goes with it is a step.

## What the code does that its comments do not say

- `ActiveMethod` is never assigned.  `Safety.OnlyFirstMethodsRun` proves the
  consequence: no run ever schedules a fallback method.
  `Safety.MixedJobPanics` proves when the branch that reads it is fatal.
- A deleted or unreadable ConfigMap leaves a nil entry which a later choice
  dereferences; when a configuration has no methods the error handler
  dereferences a nil method.  `Selection.OrderlyExactly` proves exactly which
  registries are safe; `Witnesses.NilEntryPanics` and `Witnesses.NoMethodsPanic`
  are runs that panic.
- A job with failures and successes and none active is fatal
  (`Safety.MixedJobPanics`; `Witnesses.MixedJob` is such a run).
- The reply AlreadyExists to the creation of a job passes for success, and is
  logged as a job without a name.  `Witnesses.InitiatedWithoutJob` is a run
  whose log says that a job was initiated when none was ever accepted.  So the
  entries are bounded by the jobs and these replies together
  (`Safety.JobsAreConserved`), and all name a job exactly when none of them
  records such a reply (`Safety.JobsAreConservedExactly`).
- Trying methods in document order needs distinct names
  (`Selection.VisitsExactlyDistinct`); with a name used twice the choice goes in
  a circle (`Witnesses.RepeatedNameCycles`).
- `GetSubConfig` followed by a lookup is not the lookup of the joined path when
  the first part is a list with an element that a path can name
  (`ConfigTree.PathCompositionExact`, `Witnesses.ListPath`).
- The volumes of a job are named after the secret key alone
  (`JobBuilder.VolumeNamesUnambiguous`, `Witnesses.ClashingSecrets`).
- The commands of one mechanism may share cells.  An earlier one then reads as
  the latest (`Witnesses.SharedCommand`), or as a mixture with the words of a
  call that failed (`Witnesses.MixedCommand`); `CommandSlices.KeepsItsWords`
  says exactly when it keeps its own.
- A request delivered twice before its first job exists gets two jobs
  (`Witnesses.TwoJobsAtOnce`); what does hold is `Safety.SingleFlight` and
  `Safety.SecondJobWaits`.
- `CreateFencingRequest` is held back only by a complete request, not by any
  request (`Operator.CreateFencingRequest`).
- Only the first element of a list of maps counts (`GetMapOfStrings`).
- `mechanism.go:71` tests `subcfg`, which is not declared there; the model
  reads it as `cfg`.

## Model

| member | source | states |
|---|---|---|
| ConfigTree.SplitJoin | pkg/config/config.go:82 | a key splits into the one list of dot-free parts that joins back to it |
| ConfigTree.CreateStringMap | pkg/config/config.go:365-375 | fails exactly on a key that is no string, and otherwise gives the same map for every order of the range |
| ConfigTree.UsableExactly | pkg/config/config.go:247-265 | the usable elements of a list are the dictionaries and the maps whose keys are all strings, with just the entries they hold |
| ConfigTree.ByNameExact | pkg/config/config.go:332-363 | a lookup by name finds the last element of that name before the first malformed one, and nothing exactly when there is none |
| ConfigTree.IndexExactly | pkg/config/config.go:332-363 | an element is indexed under its string "name", or, with arbitrary keys and no "name" at all, under its string "type" |
| ConfigTree.CreateSubMapFromArray | pkg/config/config.go:332-363 | the loop builds that index, stopping at the first malformed element |
| ConfigTree.CreateSubConfigForArray | pkg/config/config.go:247-265 | one sub-configuration per element of the longest usable prefix, in document order |
| ConfigTree.RetrieveValueFromKeys | pkg/config/config.go:285-328 | the loop with its early exits is the recursive descent over the tree |
| ConfigTree.GetSliceOfStrings | pkg/config/config.go:92-112 | the strings of a list of strings only, all or nothing |
| ConfigTree.GetSubConfigArray | pkg/config/config.go:233-245 | the sub-configurations of the list a path resolves to, none elsewhere |
| ConfigTree.GetMapOfStrings | pkg/config/config.go:114-131 | the string entries of the first element alone, for every order of the range |
| ConfigTree.GettersPlain | pkg/config/config.go:75-245 | on a key without dots every getter reads the entry of its own type under that key, and else gives its default |
| ConfigTree.StringsAreRead | pkg/config/config.go:114-131 | a map of strings has exactly the string entries of the first element of the list under its key |
| ConfigTree.WordsAreRead | pkg/config/config.go:92-112 | a slice of strings has the elements of the list under its key if they are all strings, and none otherwise |
| ConfigTree.LookupConcat | pkg/config/config.go:285-328 | every getter on "a.b" is the getter on b from where a leads, entering a list by name |
| ConfigTree.PathComposition | pkg/config/config.go:209-223 | every getter on "a.b" is the getter on b inside GetSubConfig(a), unless a resolves to a list |
| ConfigTree.PathCompositionExact | pkg/config/config.go:209-223 | that law holds for all b exactly when a resolves to no list with an element a path can name |
| Mechanisms.ToInt32 | pkg/apis/fencing/v1alpha1/mechanism.go:18 | the 32-bit conversion: in range, congruent, and the identity on values that fit |
| Mechanisms.NewContainerFromConfig | pkg/apis/fencing/v1alpha1/mechanism.go:69-95 | a container per configuration, an error only for none; name, image, command and variables each from their own key |
| Mechanisms.NewFencingMechanismFromConfig | pkg/apis/fencing/v1alpha1/mechanism.go:40-67 | reading a mechanism is total, its error branches being dead; configuration, secrets, dynamic fields and the rest each come from their own key |
| Mechanisms.NewFencingMethodFromConfig | pkg/apis/fencing/v1alpha1/mechanism.go:16-38 | reading a method is total and keeps the usable prefix of its mechanisms in order; each field comes from its own key |
| Mechanisms.DynamicValue | pkg/apis/fencing/v1alpha1/mechanism.go:209-216 | the value for the target if there is one, else the default if it is not empty, else nothing |
| Mechanisms.GetContainerCommand | pkg/apis/fencing/v1alpha1/mechanism.go:123-152 | for cli, base words, options in some order of the configuration, then the target; for env, the base words |
| Mechanisms.GetContainerEnv | pkg/apis/fencing/v1alpha1/mechanism.go:154-207 | format, own variables and secret paths for both formats, and the bindings for env |
| Mechanisms.CreateContainer | pkg/apis/fencing/v1alpha1/mechanism.go:105-121 | succeeds exactly for the formats cli and env when every dynamic field has a value for the target or a default; the container then has, word by word and variable by variable, what its format asks for |
| Mechanisms.ContainerIsMade | pkg/apis/fencing/v1alpha1/mechanism.go:123-207 | the mechanism's own words and variables stay in front, then the format, the secret paths, and every parameter and the target in its place |
| Mechanisms.CliRoundTrip | pkg/apis/fencing/v1alpha1/mechanism.go:127-150 | the appended words parse back to the bindings in order, with the target as option or lone word |
| Mechanisms.StaticOrderFree | pkg/apis/fencing/v1alpha1/mechanism.go:130-133 | the order of a range does not change the bindings it yields |
| Mechanisms.EncodingsAgree | pkg/apis/fencing/v1alpha1/mechanism.go:123-207 | cli options and added env variables carry the same bindings, whatever the orders on either side |
| CommandSlices.Append | pkg/apis/fencing/v1alpha1/mechanism.go:131-132 | append writes into spare capacity or moves to a new array, and touches no other cell |
| CommandSlices.AppendOption | pkg/apis/fencing/v1alpha1/mechanism.go:131-132 | the base reads as before; the result shares its cells exactly when the spare capacity covers all words; the spare cells hold what spilled |
| CommandSlices.CommandsInPlace | pkg/apis/fencing/v1alpha1/mechanism.go:123-152 | over any sequence of calls of one mechanism, failing ones among them, its own command reads the same; a call gives a command exactly when its fields resolve; each command reads its own words or what all calls together left in the shared cells |
| CommandSlices.KeepsItsWords | pkg/apis/fencing/v1alpha1/mechanism.go:123-152 | a command in shared cells keeps its words exactly when, cell by cell, the latest call to write there, be it one that failed, wrote the same word |
| CommandSlices.CallWordsAre | pkg/apis/fencing/v1alpha1/mechanism.go:127-150 | the words a successful call appends are those of the command on values |
| CommandSlices.SharedCommandsReadTheLast | pkg/apis/fencing/v1alpha1/mechanism.go:123-152 | the latest command is intact, and an earlier one of its mechanism that shares its cells reads as the latest |
| CommandSlices.CommandLength | pkg/apis/fencing/v1alpha1/mechanism.go:127-149 | all commands of one mechanism have one length, whatever the target and order |
| CommandSlices.CliCommandInPlace | pkg/apis/fencing/v1alpha1/mechanism.go:127-150 | the loops on the mechanism's own slice give the command of the value model, or fail on a field without a value; either way the mechanism's words stay and its spare cells hold what was appended until then |
| Requests.SelectorExact | pkg/apis/fencing/v1alpha1/request.go:65-78 | the selector of a request and method matches exactly the jobs of its name and target, of its configuration if set, of the method if named |
| Requests.LabelsExactly | pkg/apis/fencing/v1alpha1/request.go:65-78 | the labels of a job, one by one, and no others |
| JobBuilder.ProcessSecrets | pkg/stub/fencing.go:280-307 | a volume, a path variable and a read-only mount per secret, in one order |
| JobBuilder.CreateFencingJob | pkg/stub/fencing.go:309-363 | all or nothing: a container per mechanism in order, each made as above with its secrets behind, labelled and owned by the request, exactly when every mechanism has one |
| JobBuilder.VolumeOf | pkg/stub/fencing.go:284-291 | the volumes of a job are those of its secret keys, each named after the key and backed by its secret |
| JobBuilder.VolumesMatchMounts | pkg/stub/fencing.go:312-329 | as many volumes as secrets as mounts, over all containers |
| JobBuilder.SecretsReachContainers | pkg/stub/fencing.go:280-307 | every secret of a mechanism has a path variable and a read-only mount at its place in its container, from a volume that the job declares for just that secret; there is no other mount |
| JobBuilder.ParsedJobSecrets | pkg/stub/fencing.go:312-329 | both of these for the job of any method that was read from a configuration |
| JobBuilder.VolumeNamesUnambiguous | pkg/stub/fencing.go:284-291 | a volume name stands for one secret exactly when no two mechanisms use a key for different secrets |
| Registry.RegistryDomain | pkg/stub/fencing.go:76-122 | over any history, a name has an entry exactly when one of its events was a deletion or readable |
| Registry.RegistryServesLatest | pkg/stub/fencing.go:76-122 | an entry is its latest event's parse, or nil if that was a deletion or unreadable: never an older version, never another name's |
| Registry.ConfigIsRead | pkg/stub/fencing.go:100-121 | a configuration has its ConfigMap's name, and its node selector and methods each from their own key |
| Selection.MatchesExact | pkg/stub/fencing.go:226-229 | a configuration matches when its listing succeeded and the target then carried every label of the selector |
| Selection.ScanMeaning | pkg/stub/fencing.go:225-233 | the scan is fatal on a nil entry, and else improves on what it holds exactly when an entry beats it |
| Selection.ChooseConfigSound | pkg/stub/fencing.go:212-242 | a live earlier choice is kept; else the choice matches with a largest selector; none exactly when nothing matches; nil is met exactly when an entry is nil |
| Selection.ChoiceSticks | pkg/stub/fencing.go:216-223 | a configuration once chosen stays chosen while the registry has it, and is forgotten when it has not |
| Selection.ChooseConfigComplete | pkg/stub/fencing.go:225-233 | every such configuration is chosen under some order of the range |
| Selection.CatchAllIsLast | pkg/stub/fencing.go:226-230 | a configuration for all nodes wins only when no narrower one matches |
| Selection.PickIdle | pkg/stub/fencing.go:259-278 | with no active job, the next method is the first of another name beyond the first position of the active one, or none |
| Selection.PickStays | pkg/stub/fencing.go:267-268 | on values: a true answer at the first position of the active method fixes the choice |
| Selection.OrderlyExactly | pkg/stub/fencing.go:203-242 | no order of the range makes the choice fatal exactly when the live earlier choice has methods, or, without one, no entry is nil and every matching configuration with a largest selector has methods |
| Selection.VisitsExactlyDistinct | pkg/stub/fencing.go:259-278 | feeding choices back visits all methods once in document order, flags the last and then errs, exactly when no name repeats |
| Selection.DocumentOrder | pkg/stub/fencing.go:105-120 | the same from the YAML list: its longest usable prefix is tried in document order exactly when the names differ |
| Safety.StepOk | pkg/stub/fencing.go:34-201 | every step of every handler and of the environment keeps the invariant and leads to a later world |
| Safety.RunOk | pkg/stub/fencing.go:34-201 | so does every run |
| Safety.LogsOnlyGrow | pkg/apis/fencing/v1alpha1/request.go:16-62 | between any two states of a run a stored log was only appended to, and a complete record did not change |
| Safety.CompleteRecordsEndWithTheirResult | pkg/apis/fencing/v1alpha1/request.go:26-30 | a complete record ends with an entry of no method whose message is its result |
| Safety.CompleteIsEarned | pkg/stub/fencing.go:34-55 | a stored "Complete" was earned in the history: an open copy was judged with a delivered event of a job owned by the request, for its target, none active, none failed, some succeeded, which was the copy's active job if it had one; and the log is that copy's log closed with that job |
| Safety.GivingUpIsLast | pkg/stub/fencing.go:124-136 | a stored "GivingUp" goes back to a handler with an open copy that could not schedule the last method of the configuration it had chosen; and the log is that copy's log closed with that result |
| Safety.JobsAreConserved | pkg/stub/fencing.go:183-199 | in the store and in every copy in flight, the jobs a log names are different and were accepted for the request, and all "initiated as" entries are at most the jobs accepted for it plus the creations answered AlreadyExists |
| Safety.JobsAreConservedExactly | pkg/stub/fencing.go:183-199 | all of these entries name an accepted job exactly when the log records no such answer; without such an answer for the request they are at most its jobs |
| Safety.SingleFlight | pkg/stub/fencing.go:165-192 | a job created after a successful listing had no active job of its request, configuration and method in that listing |
| Safety.SecondJobWaits | pkg/stub/fencing.go:165-192 | of two accepted jobs of one request, configuration and method, the first was not active in the second's listing if that showed it |
| Safety.OnlyFirstMethodsRun | pkg/stub/fencing.go:263-266 | every job any run creates is for the first method of its configuration |
| Safety.MixedJobPanics | pkg/stub/fencing.go:43-45 | in a run a job event is fatal exactly when an open request hears of failures and successes with none active, from no other than its active job |
| Runs.RegistryOfRun | pkg/stub/fencing.go:76-122 | in every run the registry is what the history of its ConfigMap events leaves |
| Runs.ServedIsLatest | pkg/stub/fencing.go:212-242 | the configuration a handler goes on with is the parse of the latest event of its name |
| Runs.ChoicePanics | pkg/stub/fencing.go:216-231 | in a run the choice step panics exactly when no live choice binds the request and some entry is nil |
| Runs.PickPanics | pkg/stub/fencing.go:124-133 | in a run, picking a method is fatal exactly for a configuration without methods |
| Runs.NoSecondRequest | pkg/stub/handler.go:246-281 | while a complete request exists, listings succeed and no handler is past its listing, no run adds a request for that target |
| Runs.CancelledStayGone | pkg/stub/handler.go:232-244 | once all deletions went through, nothing that was listed is ever back, under any interleaving |
| Runs.CancelEmptiesNode | pkg/stub/handler.go:232-244 | undisturbed, a cancellation whose deletions succeed leaves the node without requests |
| Conversation.PathsAreSafe | pkg/stub/handler.go:41-62 | a path of the system from a state of the invariant ends in one, in a later world |
| Conversation.EveryRunIsPlayed | pkg/stub/handler.go:41-62 | a script can have the others do whatever they can do in a run |
| Conversation.PlayIsARun | pkg/stub/handler.go:41-62 | and nothing else |
| Conversation.DriveIsARun | pkg/stub/handler.go:41-62 | under every script a handler's pieces and the others' steps between them make up a run |
| Conversation.DriveIsSafe | pkg/stub/handler.go:41-62 | so from any state of a run a handler ends in a state of the invariant, in a later world |
| Conversation.LoopPicks | pkg/stub/fencing.go:259-278 | the loop over the methods, others acting before each of its listings, ends at the method that the choice on values gives for what the listings showed |
| Conversation.ActiveJobKeepsMethod | pkg/stub/fencing.go:267-268 | the choice stays on the active method exactly when the listing made at its first position succeeds and shows an active job of it; else it moves on or there is none |
| Conversation.DeletionsStay | pkg/stub/handler.go:232-244 | one call per pending request; each with a good answer is gone for good |
| Conversation.CancelledForGood | pkg/stub/handler.go:232-244 | one call per listed request; what was deleted is gone at the end; with good answers to all calls no request that existed at the start is left, whatever others did |
| Conversation.CreateRunDoes | pkg/stub/handler.go:246-281 | after a good listing with a complete request nothing happens, else there is one creation at most and no other change |
| Outcomes.ScheduleRun | pkg/stub/fencing.go:165-201 | with a method in hand: a listing, nothing more if it shows an active job, else the failure recorded if the method cannot be built, else one creation with the job, the active job and its entry, or the failure, as the server answers |
| Outcomes.RequestRun | pkg/stub/fencing.go:138-201 | an open request panics exactly on a fatal choice, is closed with "NoConfig" when nothing matches, and else has the first method of the chosen configuration scheduled, as the last if there is no other |
| Outcomes.JudgeRun | pkg/stub/fencing.go:34-55 | a job event changes nothing, closes the request, panics, or has the request handled again, exactly by the job's counters and the copy |
| Outcomes.MixedRun | pkg/stub/fencing.go:43-45 | were a method active, a mixed job would be noted under it and the request handled again |
| Outcomes.JobRun | pkg/stub/fencing.go:57-74 | an arriving job event is judged with the stored request of its owner and target, or does nothing |
| Outcomes.FailedJobLeadsToNext | pkg/stub/fencing.go:34-55 | the event of a job that only failed leads to the next job of its request wherever a method can be built, a good listing shows none active and the server grants a name |
| Outcomes.OrderlyChooses | pkg/stub/fencing.go:203-242 | in an orderly registry a request that some configuration matches is given one with a method |
| Outcomes.AskRun | pkg/stub/handler.go:246-281 | one listing; nothing more if it succeeds and shows a complete request of the node; else one creation, which adds one blank request under the name the server grants and changes nothing else |
| Outcomes.WithdrawRun | pkg/stub/handler.go:232-244 | one listing, then one deletion for each request it showed, and no other change |
| Operator.FencingRequest.Update | pkg/apis/fencing/v1alpha1/request.go:32-62 | one call; the store takes the record, field by field, exactly when its version is current and the server accepts, else nothing changes |
| Operator.FencingRequest.AddResult | pkg/apis/fencing/v1alpha1/request.go:16-24 | the record gains one entry at its end and is offered so |
| Operator.FencingRequest.SetFinalResult | pkg/apis/fencing/v1alpha1/request.go:26-30 | the record is closed with the result and an entry of no method, and offered so |
| Operator.IsFencingMethodActive | pkg/stub/fencing.go:244-257 | true exactly when the listing succeeded and some job under the selector was active |
| Operator.ChooseFencingConfig | pkg/stub/fencing.go:212-242 | the loop gives the choice whose soundness and completeness are proved, and sets the request's configuration accordingly |
| Operator.ChooseFencingMethod | pkg/stub/fencing.go:259-278 | the loop, with others acting between its queries, ends where the system drives it, with the choice for what the script's answers showed |
| Operator.HandleFencingRequestError | pkg/stub/fencing.go:124-136 | an error closes the request with "GivingUp" after the last method, and before it adds one note under the method's name; fatal without a method |
| Operator.ScheduleJob | pkg/stub/fencing.go:165-201 | has the outcome of a method in hand |
| Operator.LaunchJob | pkg/stub/fencing.go:175-201 | creating the job and recording what came of it ends where the system drives it, and never panics |
| Operator.HandleFencingRequest | pkg/stub/fencing.go:138-201 | a deleted or complete request changes nothing; in a run an open one has its outcome, with a panic exactly on a nil entry or a chosen configuration without methods, so never where the registry is orderly |
| Operator.HandleFencingJob | pkg/stub/fencing.go:34-55 | an event that tells nothing changes nothing; a clean success closes the record, offers it and does no more; a mixed job panics; any other event ends where the handling of the request ends, in the same state after as many calls |
| Operator.HandleJob | pkg/stub/fencing.go:57-74 | fatal without an owner; nothing changes when the node or the request is not found; else the event has its outcome for the stored request |
| Operator.CreateFencingRequest | pkg/stub/handler.go:246-281 | no request after a good listing with a complete one, else exactly the one the server creates; a request that is not complete holds nothing back; succeeds as the server says |
| Operator.CancelFencingRequests | pkg/stub/handler.go:232-244 | one deletion per listed request and no other change; clears the node as above |
| Operator.NodeIsCleared | pkg/stub/handler.go:71-86 | a node last reported back, with good answers to that cancellation, keeps no request made before it |
| Operator.HandleNode | pkg/stub/handler.go:64-90 | the conditions are answered one by one: a lost node is asked to be fenced, the requests of one that is back or deleted are withdrawn, nothing is done for other conditions |
| Operator.LostNodeIsAsked | pkg/stub/handler.go:71-80 | a node last reported lost gets one listing, and a blank request under a new name that the server grants unless a complete one was listed |
| Operator.HandleEvent | pkg/stub/handler.go:110-124 | a warning of a supported source gets its node a request once the node is found; other events do nothing |
| Operator.HandleConfigMap | pkg/stub/fencing.go:76-122 | nothing without the key, nil after a deletion or over unreadable text, else the configuration read key by key; nothing else changes; fails exactly on unreadable text |
| Operator.EventRunIsARun | pkg/stub/handler.go:41-62 | handling any event under any script is a run of the system |
| Operator.Handle | pkg/stub/handler.go:41-62 | whatever the event, the script and the others, in a run every event has its outcome, the invariant is kept and the world is a later one |
| Witnesses.NilEntryPanics | pkg/stub/fencing.go:82-86 | a run in which a deleted ConfigMap makes the next request panic |
| Witnesses.NoMethodsPanic | pkg/stub/fencing.go:124-133 | a run in which a configuration without methods does |
| Witnesses.MixedJob | pkg/stub/fencing.go:43-45 | a run in which a job with one failure and one success does |
| Witnesses.TwoJobsAtOnce | pkg/stub/fencing.go:165-201 | a run in which one request has two active jobs of one configuration and method |
| Witnesses.InitiatedWithoutJob | pkg/stub/fencing.go:184-200 | a run whose stored log says a job was initiated when none was accepted |
| Witnesses.RepeatedNameCycles | pkg/stub/fencing.go:259-278 | with methods named a, b, a the choice goes from the second a to b again |
| Witnesses.ListPath | pkg/config/config.go:209-223 | a joined path through a list has a value that the path taken apart has not |
| Witnesses.ClashingSecrets | pkg/stub/fencing.go:284-291 | a job with two volumes of one name for two secrets |
| Witnesses.SharedCommand | pkg/apis/fencing/v1alpha1/mechanism.go:127-150 | after a second call the command made for one node names the other |
| Witnesses.MixedCommand | pkg/apis/fencing/v1alpha1/mechanism.go:135-142 | after a call that failed the command made for one node has its target with the other's port |

## Left out

- Leader election, CRD registration, client construction and backoff timing: library plumbing.
- Parsing of YAML text and JSON encoding: the model starts from the parsed tree.
- The mutex in Config: nothing writes a Config after it is made.
- GetFloat32 and the rounding of floats: a getter like the others up to rounding.
- `createNewMap` copies a map before each lookup: maps are values here.
- CreateConfig, Empty and ToMap: reading a file, and copies of the map.
- The final `len(subMap) > 0` test in `retrieveValueFromKeys`: no last key reaches it.
- A nil map and an empty map, a nil slice and an empty one: nothing that is modelled tells them apart.
- Timestamps, log lines and the wording of errors: a log entry keeps its method, its message and the job it speaks of.
- JobBuilder.ProcessSecrets: the container is passed and returned as a value, not updated through a pointer; it is fresh and has no other reference.
- Mechanisms.GetContainerCommand: the command is a value here; the sharing of its backing array is modelled in `CommandSlices`.
- Operator.HandleConfigMap: one atomic event, so a choice made while a ConfigMap is being parsed is not modelled.
- Operator.HandleJob: looking up the node and listing its requests are one call, with no turn of the others between the two.
- Operator.ChooseFencingConfig: reads the registry as it is when the loop starts, and node listings are arbitrary answers, not a modelled node table.
- Namespaces: all jobs and requests live in one.
- Pod and volume dirtiness: `isNodeDirty` always answers true.
- RequireAfterSeconds, StopOnSuccess, ValidAfter and TimeoutSeconds have no effect in any handler.
- Generated deep copies: a container copy is taken to be fresh.
- The agent entrypoint, deployment files and access rules.
